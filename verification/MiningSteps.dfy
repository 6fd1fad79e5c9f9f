/** Claims, entries and exits of deposits keep the invariant. */
module MiningSteps {
  import opened Basics
  import opened Sums
  import opened Ledgers
  import opened NftIds
  import opened Mining
  import opened MiningPools
  import opened MiningInvariant

  /** Nothing about pools other than `id` got worse. */
  ghost predicate OthersKept(s: State, s': State, id: PoolId) {
    && s.block <= s'.block
    && (forall p {:trigger DepositsOf(s'.deposits, p)} :: p != id ==>
          DepositsOf(s'.deposits, p) == DepositsOf(s.deposits, p))
    && (forall a, p :: p != id ==> Free(s.ledger, a, MiningPool(p)) <= Free(s'.ledger, a, MiningPool(p)))
    && (forall p :: p != id && p in s.rounding ==> p in s'.rounding && s'.rounding[p] == s.rounding[p])
  }

  /** The farm keeps its identity; only accumulators and totals may differ. */
  predicate SameFarm(farm: Farm, farm': Farm) {
    farm'.blocksPerPeriod == farm.blocksPerPeriod && farm'.currency == farm.currency && farm.accRpz <= farm'.accRpz
  }

  lemma OtherPools(cfg: Config, s: State, s': State, key: Key)
    requires Inv(cfg, s) && key in s.pools
    requires OthersKept(s, s', s.pools[key].id)
    requires forall f :: f in s.farms ==> f in s'.farms && SameFarm(s.farms[f], s'.farms[f])
    ensures forall k :: k in s.pools && k in s'.pools && k != key && s'.pools[k] == s.pools[k] ==> PoolInv(cfg, s', k)
  {
    hide PoolOK, FarmInv, Elapsed;
    forall k | k in s.pools && k in s'.pools && k != key && s'.pools[k] == s.pools[k]
      ensures PoolInv(cfg, s', k)
    {
      IdsDistinct(s, k, key);
      assert PoolInv(cfg, s, k);
      PoolFrame(cfg, s, s', k);
    }
  }

  lemma StakesOnChange(pools: map<Key, Pool>, key: Key, pool: Pool, f: PoolId)
    requires key in pools
    ensures f != key.0 ==> StakesIn(pools[key := pool], f) == StakesIn(pools, f)
    ensures f == key.0 ==>
              Sum(StakesIn(pools[key := pool], f)) == Sum(StakesIn(pools, f)) - pools[key].stake + pool.stake
    ensures |StakesIn(pools[key := pool], f)| == |StakesIn(pools, f)|
  {
    if f == key.0 {
      assert StakesIn(pools[key := pool], f) == StakesIn(pools, f)[key := pool.stake];
      SumUpdate(StakesIn(pools, f), key, pool.stake);
      CardInsert(StakesIn(pools, f), key, pool.stake);
    } else {
      assert StakesIn(pools[key := pool], f) == StakesIn(pools, f);
    }
  }

  /** No pool's stake exceeds its farm's total. */
  lemma StakeWithinTotal(cfg: Config, s: State, key: Key)
    requires Inv(cfg, s) && key in s.pools && key.0 in s.farms
    ensures s.pools[key].stake <= s.farms[key.0].totalSharesZ
  {
    hide PoolInv, PacingOK;
    assert FarmInv(s, key.0);
    SumAtLeast(StakesIn(s.pools, key.0), key);
  }

  /** Changing one pool's stake and its farm's total by the same amount. */
  lemma FarmsAfterRestake(s: State, s': State, key: Key, total: nat, pool: Pool)
    requires FarmsOK(s) && key in s.pools && key.0 in s.farms
    requires s'.farms == s.farms[key.0 := s.farms[key.0].(totalSharesZ := total)]
    requires s'.pools == s.pools[key := pool] && s'.audit == s.audit && s'.block == s.block
    requires total == s.farms[key.0].totalSharesZ - s.pools[key].stake + pool.stake
    ensures FarmsOK(s')
  {
    forall f | f in s'.farms
      ensures FarmInv(s', f)
    {
      FarmAfterRestake(s, s', key, total, pool, f);
    }
  }

  lemma FarmAfterRestake(s: State, s': State, key: Key, total: nat, pool: Pool, f: PoolId)
    requires FarmsOK(s) && key in s.pools && key.0 in s.farms
    requires s'.farms == s.farms[key.0 := s.farms[key.0].(totalSharesZ := total)]
    requires s'.pools == s.pools[key := pool] && s'.audit == s.audit && s'.block == s.block
    requires total == s.farms[key.0].totalSharesZ - s.pools[key].stake + pool.stake
    requires f in s.farms
    ensures FarmInv(s', f)
  {
    hide Elapsed, PacingOK, StakesIn;
    assert FarmInv(s, f);
    StakesOnChange(s.pools, key, pool, f);
    if f != key.0 {
      FarmFrame(s, s', f);
    } else {
      PacingIgnoresTotals(s.farms[f], s'.farms[f], s.audit[f], Now(s, f));
    }
  }

  lemma FarmsUnchanged(s: State, s': State)
    requires FarmsOK(s)
    requires s'.farms == s.farms && s'.audit == s.audit && s'.pools == s.pools && s.block <= s'.block
    ensures FarmsOK(s')
  {
    hide PacingOK, FarmTotalsOK, Elapsed;
    forall f | f in s'.farms
      ensures FarmInv(s', f)
    {
      assert FarmInv(s, f);
      FarmFrame(s, s', f);
    }
  }

  // Claims.

  /** All the invariant needs to know about a claim that paid. */
  ghost predicate PaidClaim(cfg: Config, s: State, key: Key, nft: NftId, who: nat, now: nat, s': State, reward: nat)
    requires Stored(s, key) && nft in s.deposits
  {
    var d, pool := s.deposits[nft], s.pools[key];
    && s' == s.(deposits := s.deposits[nft := d.(claimed := d.claimed + reward, updatedAt := now)], ledger := s'.ledger)
    && Transfer(s.ledger, s.farms[key.0].currency, MiningPool(pool.id), User(who), reward) == Some(s'.ledger)
    && reward <= OwedFn(pool.accRpvs)(d)
    && DepositOK(cfg, pool.curve, pool.accRpvs, s'.deposits[nft], now)
  }

  /** A successful claim pays at most what is owed and leaves exactly the forfeitable part owed. */
  lemma ClaimShape(cfg: Config, s: State, key: Key, nft: NftId, who: nat, now: nat, s': State, reward: nat,
                   unclaimable: nat)
    requires Lawful(cfg) && Stored(s, key) && nft in s.deposits
    requires DoClaim(cfg, s, key, nft, who, now) == Ok((s', reward, unclaimable))
    requires s.deposits[nft].updatedAt != now
    requires DepositOK(cfg, s.pools[key].curve, s.pools[key].accRpvs, s.deposits[nft], now)
    ensures PaidClaim(cfg, s, key, nft, who, now, s', reward)
    ensures unclaimable == OwedFn(s.pools[key].accRpvs)(s'.deposits[nft])
    ensures var d, pool := s.deposits[nft], s.pools[key];
            var loyalty := LoyaltyMultiplier(cfg, now - d.enteredAt, pool.curve);
            && loyalty.Ok? && 0 <= Most(pool.accRpvs, d)
            && s'.deposits[nft].claimed == FixedMul(loyalty.value, Most(pool.accRpvs, d))
  {
    hide FixedMul, Most, DepositOK, FixedMulInt, Mul;
    var d, pool := s.deposits[nft], s.pools[key];
    var loyalty := LoyaltyMultiplier(cfg, now - d.enteredAt, pool.curve).value;
    ClaimArithmetic(cfg, pool.curve, pool.accRpvs, d, loyalty, now);
    ClaimVests(cfg, pool.curve, pool.accRpvs, d, loyalty, now);
    MostIgnoresClaims(pool.accRpvs, d, s'.deposits[nft]);
  }

  lemma MostIgnoresClaims(rpvs: nat, d: Stake, d': Stake)
    requires d'.accRpvs == d.accRpvs && d'.valued == d.valued
    ensures Most(rpvs, d') == Most(rpvs, d)
  {
  }

  lemma ClaimedView(cfg: Config, s: State, key: Key, nft: NftId, who: nat, now: nat, s': State, reward: nat)
    requires Stored(s, key) && nft in s.deposits && s.pools[key].id in s.rounding
    requires PaidClaim(cfg, s, key, nft, who, now, s', reward)
    requires DecodePool(nft) == Some(s.pools[key].id)
    ensures var v := ViewOf(s, key);
            && nft in v.deps && v.deps[nft] == s.deposits[nft]
            && (reward <= v.funds ==>
                  ViewOf(s', key) == v.(deps := v.deps[nft := s'.deposits[nft]], funds := v.funds - reward))
    ensures OthersKept(s, s', s.pools[key].id)
  {
    hide DecodePool, OwedFn, DepositOK;
    var id := s.pools[key].id;
    DepositsOnChange(s.deposits, nft, s'.deposits[nft], id);
    forall p | p != id
      ensures DepositsOf(s'.deposits, p) == DepositsOf(s.deposits, p)
    {
      DepositsOnChange(s.deposits, nft, s'.deposits[nft], p);
    }
  }

  lemma ClaimedPool(cfg: Config, s: State, key: Key, nft: NftId, who: nat, now: nat, s': State, reward: nat)
    requires Lawful(cfg) && Stored(s, key) && nft in s.deposits && PoolInv(cfg, s, key)
    requires now == Now(s, key.0)
    requires DecodePool(nft) == Some(s.pools[key].id)
    requires PaidClaim(cfg, s, key, nft, who, now, s', reward)
    ensures PoolInv(cfg, s', key)
  {
    hide OwedFn, Total, Elapsed, DecodePool, TotalsOK, StakeOK, Solvent, DepositsOK;
    ClaimedView(cfg, s, key, nft, who, now, s', reward);
    ClaimKeeps(cfg, ViewOf(s, key), ViewOf(s', key), nft, reward, now);
  }

  lemma ClaimKeepsInv(cfg: Config, s: State, key: Key, nft: NftId, who: nat, now: nat, s': State, reward: nat)
    requires Lawful(cfg) && Inv(cfg, s) && Stored(s, key) && nft in s.deposits
    requires s.farms[key.0].blocksPerPeriod > 0 && now == Now(s, key.0)
    requires DecodePool(nft) == Some(s.pools[key].id)
    requires PaidClaim(cfg, s, key, nft, who, now, s', reward)
    ensures Inv(cfg, s')
  {
    hide DepositOK, OwedFn, Elapsed, DecodePool, PoolOK, FarmInv, Linked, CountOK, NftOK;
    IdsDistinct(s, key, key);
    assert PoolInv(cfg, s, key);
    ClaimedView(cfg, s, key, nft, who, now, s', reward);
    ClaimedPool(cfg, s, key, nft, who, now, s', reward);
    OtherPools(cfg, s, s', key);
    assert s'.deposits.Keys == s.deposits.Keys;
    FarmsUnchanged(s, s');
  }

  // Entries.

  /** `s'` is `s` after deposit `d` entered the pool at `key` under `nft`. */
  ghost predicate Entered(s: State, key: Key, nft: NftId, d: Stake, stake: nat, token: AssetId, who: nat, now: nat,
                          s': State)
    requires Stored(s, key) && s.pools[key].id in s.meta
  {
    var farm, pool := s.farms[key.0], s.pools[key];
    var m := s.meta[pool.id];
    && !pool.canceled
    && s.nftSeq + 1 <= MAX_NFT_SEQUENCE && nft == EncodeId(pool.id, s.nftSeq + 1)
    && d == Stake(d.shares, d.valued, pool.accRpvs, 0, now, now)
    && stake == StakeFn(pool.multiplier)(d) && pool.stake + stake <= MAX_U128
    && s' == s.(farms := s.farms[key.0 := farm.(totalSharesZ := farm.totalSharesZ + stake)],
                pools := s.pools[key := pool.(totalShares := pool.totalShares + d.shares,
                                              totalValued := pool.totalValued + d.valued, stake := pool.stake + stake)],
                deposits := s.deposits[nft := d],
                owners := s.owners[nft := who],
                meta := s.meta[pool.id := m.(count := m.count + 1)],
                nftSeq := s.nftSeq + 1,
                ledger := s'.ledger)
    && Transfer(s.ledger, token, User(who), MiningPallet, d.shares) == Some(s'.ledger)
  }

  /** A minted NFT id is new and decodes to its pool. */
  lemma FreshNft(s: State, key: Key, nft: NftId)
    requires StructureOK(s) && key in s.pools
    requires s.nftSeq + 1 <= MAX_NFT_SEQUENCE && nft == EncodeId(s.pools[key].id, s.nftSeq + 1)
    ensures nft !in s.deposits && nft !in s.owners && DecodePool(nft) == Some(s.pools[key].id)
    ensures nft / 0x1_0000_0000 == s.nftSeq + 1
  {
    hide EncodeId, DecodePool;
    IdsDistinct(s, key, key);
    IdRoundTrip(s.pools[key].id, s.nftSeq + 1);
    assert nft in s.deposits ==> NftOK(nft, s.meta.Keys, s.nftSeq);
  }

  lemma NftsAfterEntry(nfts: set<NftId>, owners: set<NftId>, meta: map<PoolId, Meta>, nftSeq: nat, stored: set<Key>,
                       nft: NftId, id: PoolId)
    requires NftsOK(nfts, owners, meta, nftSeq, stored)
    requires nft !in nfts && DecodePool(nft) == Some(id) && id in meta && nft / 0x1_0000_0000 == nftSeq + 1
    ensures NftsOK(nfts + {nft}, owners + {nft}, meta[id := meta[id].(count := meta[id].count + 1)], nftSeq + 1, stored)
  {
    hide DecodePool;
    var meta' := meta[id := meta[id].(count := meta[id].count + 1)];
    assert meta'.Keys == meta.Keys;
    forall n | n in nfts + {nft}
      ensures NftOK(n, meta'.Keys, nftSeq + 1)
    {
      assert n in nfts ==> NftOK(n, meta.Keys, nftSeq);
    }
    forall p | p in meta'
      ensures CountOK(nfts + {nft}, meta', p, stored)
    {
      assert CountOK(nfts, meta, p, stored);
      if p == id {
        assert NftsOf(nfts + {nft}, p) == NftsOf(nfts, p) + {nft};
      } else {
        assert NftsOf(nfts + {nft}, p) == NftsOf(nfts, p);
      }
    }
  }

  lemma LinksAfterCount(ids: map<Key, PoolId>, meta: map<PoolId, Meta>, farms: set<PoolId>, id: PoolId, count: nat)
    requires LinksOK(ids, meta, farms) && id in meta
    ensures LinksOK(ids, meta[id := meta[id].(count := count)], farms)
  {
    var meta' := meta[id := meta[id].(count := count)];
    forall p | p in meta'
      ensures Linked(ids, meta', p)
    {
      assert Linked(ids, meta, p);
    }
  }

  lemma EnteredView(s: State, key: Key, nft: NftId, d: Stake, stake: nat, token: AssetId, who: nat, now: nat, s': State)
    requires Stored(s, key) && s.pools[key].id in s.meta && s.pools[key].id in s.rounding
    requires Entered(s, key, nft, d, stake, token, who, now, s')
    requires DecodePool(nft) == Some(s.pools[key].id)
    ensures var v := ViewOf(s, key);
            ViewOf(s', key) == v.(pool := s'.pools[key], deps := v.deps[nft := d])
    ensures OthersKept(s, s', s.pools[key].id)
  {
    hide DecodePool, StakeFn, EncodeId;
    var id := s.pools[key].id;
    DepositsOnChange(s.deposits, nft, d, id);
    forall p | p != id
      ensures DepositsOf(s'.deposits, p) == DepositsOf(s.deposits, p)
    {
      DepositsOnChange(s.deposits, nft, d, p);
    }
  }

  lemma EnteredPool(cfg: Config, s: State, key: Key, nft: NftId, d: Stake, stake: nat, token: AssetId, who: nat,
                    now: nat, s': State)
    requires Stored(s, key) && s.pools[key].id in s.meta && PoolInv(cfg, s, key)
    requires Entered(s, key, nft, d, stake, token, who, now, s') && now == Now(s, key.0)
    requires DecodePool(nft) == Some(s.pools[key].id) && nft !in s.deposits
    ensures PoolInv(cfg, s', key)
  {
    hide DecodePool, StakeFn, EncodeId, Elapsed, TotalsOK, StakeOK, Solvent, DepositsOK;
    EnteredView(s, key, nft, d, stake, token, who, now, s');
    EntryKeeps(cfg, ViewOf(s, key), ViewOf(s', key), nft, d, stake, now);
  }

  lemma EntryStructure(cfg: Config, s: State, key: Key, nft: NftId, d: Stake, stake: nat, token: AssetId, who: nat,
                       now: nat, s': State)
    requires StructureOK(s) && Stored(s, key) && s.pools[key].id in s.meta
    requires Entered(s, key, nft, d, stake, token, who, now, s')
    ensures StructureOK(s')
  {
    hide DecodePool, StakeFn, EncodeId, LinksOK, NftsOK;
    var id := s.pools[key].id;
    FreshNft(s, key, nft);
    NftsAfterEntry(s.deposits.Keys, s.owners.Keys, s.meta, s.nftSeq, s.pools.Keys, nft, id);
    LinksAfterCount(Ids(s.pools), s.meta, s.farms.Keys, id, s.meta[id].count + 1);
    assert Ids(s'.pools) == Ids(s.pools) && s'.pools.Keys == s.pools.Keys && s'.farms.Keys == s.farms.Keys;
    assert s'.deposits.Keys == s.deposits.Keys + {nft} && s'.owners.Keys == s.owners.Keys + {nft};
    assert s'.meta.Keys == s.meta.Keys;
  }

  lemma EntryKeepsInv(cfg: Config, s: State, key: Key, nft: NftId, d: Stake, stake: nat, token: AssetId, who: nat,
                      now: nat, s': State)
    requires Inv(cfg, s) && Stored(s, key) && s.pools[key].id in s.meta
    requires s.farms[key.0].blocksPerPeriod > 0 && now == Now(s, key.0)
    requires Entered(s, key, nft, d, stake, token, who, now, s')
    ensures Inv(cfg, s')
  {
    hide DecodePool, StakeFn, EncodeId, Elapsed, PoolOK, FarmInv, NumbersOK, LinksOK, NftsOK;
    EntryStructure(cfg, s, key, nft, d, stake, token, who, now, s');
    FreshNft(s, key, nft);
    IdsDistinct(s, key, key);
    assert PoolInv(cfg, s, key);
    EnteredView(s, key, nft, d, stake, token, who, now, s');
    EnteredPool(cfg, s, key, nft, d, stake, token, who, now, s');
    OtherPools(cfg, s, s', key);
    FarmsAfterRestake(s, s', key, s.farms[key.0].totalSharesZ + stake, s'.pools[key]);
  }
}
