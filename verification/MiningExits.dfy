/** Withdrawals keep the invariant, whether or not the pool is still stored. */
module MiningExits {
  import opened Basics
  import opened Ledgers
  import opened NftIds
  import opened Mining
  import opened MiningPools
  import opened MiningInvariant
  import opened MiningSteps

  lemma NftsAfterExit(nfts: set<NftId>, owners: set<NftId>, meta: map<PoolId, Meta>, nftSeq: nat, stored: set<Key>,
                      nft: NftId, id: PoolId)
    requires NftsOK(nfts, owners, meta, nftSeq, stored)
    requires nft in nfts && DecodePool(nft) == Some(id)
    ensures id in meta && meta[id].count > 0
    ensures NftsOK(nfts - {nft}, owners - {nft}, MetaAfterExit(meta, id, KeyOf(meta[id]) in stored), nftSeq, stored)
  {
    hide DecodePool;
    assert NftOK(nft, meta.Keys, nftSeq) && CountOK(nfts, meta, id, stored);
    assert nft in NftsOf(nfts, id);
    var meta' := MetaAfterExit(meta, id, KeyOf(meta[id]) in stored);
    var rest := NftsOf(nfts - {nft}, id);
    assert rest == NftsOf(nfts, id) - {nft};
    assert |rest| == meta[id].count - 1;
    forall n | n in nfts - {nft}
      ensures NftOK(n, meta'.Keys, nftSeq)
    {
      assert NftOK(n, meta.Keys, nftSeq);
      assert DecodePool(n) == Some(id) ==> n in rest && |rest| > 0;
    }
    forall p | p in meta'
      ensures CountOK(nfts - {nft}, meta', p, stored)
    {
      assert CountOK(nfts, meta, p, stored);
      if p != id {
        assert NftsOf(nfts - {nft}, p) == NftsOf(nfts, p);
      }
    }
  }

  lemma LinksAfterExit(ids: map<Key, PoolId>, meta: map<PoolId, Meta>, farms: set<PoolId>, id: PoolId)
    requires LinksOK(ids, meta, farms) && id in meta && meta[id].count > 0
    ensures LinksOK(ids, MetaAfterExit(meta, id, KeyOf(meta[id]) in ids), farms)
  {
    var meta' := MetaAfterExit(meta, id, KeyOf(meta[id]) in ids);
    forall p | p in meta'
      ensures Linked(ids, meta', p)
    {
      assert Linked(ids, meta, p);
    }
  }

  /** Structure after a withdrawal. */
  lemma ExitStructure(s: State, nft: NftId, id: PoolId, s': State)
    requires StructureOK(s) && nft in s.deposits && DecodePool(nft) == Some(id)
    requires id in s.meta && s.meta[id].count > 0
    requires s'.farms.Keys == s.farms.Keys && s'.pools.Keys == s.pools.Keys && Ids(s'.pools) == Ids(s.pools)
    requires s'.deposits == s.deposits - {nft} && s'.owners == s.owners - {nft}
    requires s'.meta == MetaAfterExit(s.meta, id, KeyOf(s.meta[id]) in s.pools)
    requires s'.audit == s.audit && s'.rounding == s.rounding && s'.poolSeq == s.poolSeq && s'.nftSeq == s.nftSeq
    ensures StructureOK(s')
  {
    hide DecodePool, LinksOK, NftsOK;
    NftsAfterExit(s.deposits.Keys, s.owners.Keys, s.meta, s.nftSeq, s.pools.Keys, nft, id);
    LinksAfterExit(Ids(s.pools), s.meta, s.farms.Keys, id);
    assert s'.deposits.Keys == s.deposits.Keys - {nft} && s'.owners.Keys == s.owners.Keys - {nft};
    assert Ids(s.pools).Keys == s.pools.Keys;
  }

  /** `s'` is `s` after `nft` left the stored pool at `key`, which paid `unclaimable` back to its farm
      (ledger `l`) before any LP shares were returned. */
  ghost predicate Left(s: State, key: Key, nft: NftId, stake: nat, unclaimable: nat, l: Ledger, s': State)
    requires Stored(s, key) && nft in s.deposits
    requires s.pools[key].id in s.meta && s.meta[s.pools[key].id].count > 0
  {
    var d, farm, pool := s.deposits[nft], s.farms[key.0], s.pools[key];
    && d.shares <= pool.totalShares && d.valued <= pool.totalValued
    && stake <= pool.stake && stake <= farm.totalSharesZ
    && stake == (if pool.canceled then 0 else StakeFn(pool.multiplier)(d))
    && unclaimable <= OwedFn(pool.accRpvs)(d)
    && s' == s.(farms := s.farms[key.0 := farm.(totalSharesZ := farm.totalSharesZ - stake)],
                pools := s.pools[key := pool.(totalShares := pool.totalShares - d.shares,
                                              totalValued := pool.totalValued - d.valued, stake := pool.stake - stake)],
                deposits := s.deposits - {nft},
                owners := s.owners - {nft},
                meta := MetaAfterExit(s.meta, pool.id, KeyOf(s.meta[pool.id]) in s.pools),
                ledger := s'.ledger)
    && Transfer(s.ledger, farm.currency, MiningPool(pool.id), MiningPool(key.0), unclaimable) == Some(l)
    && Returned(l, s'.ledger)
  }

  /** Returning LP shares touches no pool or farm account. */
  ghost predicate Returned(l: Ledger, l': Ledger) {
    forall a, p :: Free(l', a, MiningPool(p)) == Free(l, a, MiningPool(p))
  }

  lemma LeftView(s: State, key: Key, nft: NftId, stake: nat, unclaimable: nat, l: Ledger, s': State)
    requires Stored(s, key) && nft in s.deposits && s.pools[key].id in s.rounding && s.pools[key].id != key.0
    requires s.pools[key].id in s.meta && s.meta[s.pools[key].id].count > 0
    requires Left(s, key, nft, stake, unclaimable, l, s')
    requires DecodePool(nft) == Some(s.pools[key].id)
    ensures var v := ViewOf(s, key);
            && nft in v.deps && v.deps[nft] == s.deposits[nft]
            && (unclaimable <= v.funds ==>
                  ViewOf(s', key) == View(s'.pools[key], v.deps - {nft}, v.funds - unclaimable, v.slack))
    ensures OthersKept(s, s', s.pools[key].id)
  {
    hide DecodePool, StakeFn, OwedFn, MetaAfterExit;
    var id := s.pools[key].id;
    DepositsOnExit(s.deposits, nft, id);
    forall p | p != id
      ensures DepositsOf(s'.deposits, p) == DepositsOf(s.deposits, p)
    {
      DepositsOnExit(s.deposits, nft, p);
    }
  }

  lemma LeftPool(cfg: Config, s: State, key: Key, nft: NftId, stake: nat, unclaimable: nat, l: Ledger, s': State)
    requires Lawful(cfg) && Stored(s, key) && nft in s.deposits && PoolInv(cfg, s, key)
    requires s.pools[key].id != key.0
    requires s.pools[key].id in s.meta && s.meta[s.pools[key].id].count > 0
    requires Left(s, key, nft, stake, unclaimable, l, s')
    requires DecodePool(nft) == Some(s.pools[key].id)
    ensures PoolInv(cfg, s', key)
  {
    hide DecodePool, StakeFn, OwedFn, Elapsed, MetaAfterExit, TotalsOK, StakeOK, Solvent, DepositsOK;
    LeftView(s, key, nft, stake, unclaimable, l, s');
    ExitFits(cfg, ViewOf(s, key), nft, Now(s, key.0));
    ExitKeeps(cfg, ViewOf(s, key), ViewOf(s', key), nft, stake, unclaimable, Now(s, key.0));
  }

  lemma LeftKeepsInv(cfg: Config, s: State, key: Key, nft: NftId, stake: nat, unclaimable: nat, l: Ledger, s': State)
    requires Lawful(cfg) && Inv(cfg, s) && Stored(s, key) && nft in s.deposits
    requires s.pools[key].id in s.meta && s.meta[s.pools[key].id].count > 0
    requires Left(s, key, nft, stake, unclaimable, l, s')
    requires DecodePool(nft) == Some(s.pools[key].id)
    ensures Inv(cfg, s')
  {
    hide DecodePool, StakeFn, OwedFn, Elapsed, MetaAfterExit, PoolOK, FarmInv, NumbersOK, LinksOK, NftsOK;
    IdsDistinct(s, key, key);
    assert PoolInv(cfg, s, key);
    LeftView(s, key, nft, stake, unclaimable, l, s');
    LeftPool(cfg, s, key, nft, stake, unclaimable, l, s');
    assert Ids(s'.pools) == Ids(s.pools);
    ExitStructure(s, nft, s.pools[key].id, s');
    OtherPools(cfg, s, s', key);
    FarmsAfterRestake(s, s', key, s.farms[key.0].totalSharesZ - stake, s'.pools[key]);
  }

  /** Leaving a pool that is no longer stored changes no pool or farm. */
  lemma OrphanKeepsInv(cfg: Config, s: State, nft: NftId, id: PoolId, s': State)
    requires Inv(cfg, s) && nft in s.deposits && DecodePool(nft) == Some(id)
    requires id in s.meta && s.meta[id].count > 0 && KeyOf(s.meta[id]) !in s.pools
    requires s' == s.(deposits := s.deposits - {nft}, owners := s.owners - {nft},
                      meta := MetaAfterExit(s.meta, id, false), ledger := s'.ledger)
    requires Returned(s.ledger, s'.ledger)
    ensures Inv(cfg, s')
  {
    hide DecodePool, Elapsed, MetaAfterExit, PoolOK, FarmInv, NumbersOK, NftsOK;
    ExitStructure(s, nft, id, s');
    FarmsUnchanged(s, s');
    forall k | k in s'.pools
      ensures PoolInv(cfg, s', k)
    {
      assert PoolInv(cfg, s, k);
      assert Ids(s.pools)[k] == s.pools[k].id;
      DepositsOnExit(s.deposits, nft, s.pools[k].id);
      PoolFrame(cfg, s, s', k);
    }
  }
}
