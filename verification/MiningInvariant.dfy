/** What holds in every reachable state of the liquidity-mining pallet. */
module MiningInvariant {
  import opened Basics
  import opened Sums
  import opened Rounding
  import opened Ledgers
  import opened NftIds
  import opened Mining
  import opened MiningPools

  function KeyOf(m: Meta): Key { (m.farm, AmmOf(m.pair)) }

  function Ids(pools: map<Key, Pool>): map<Key, PoolId> { map k | k in pools :: pools[k].id }

  function StakesIn(pools: map<Key, Pool>, farm: PoolId): map<Key, int> {
    map k | k in pools && k.0 == farm :: pools[k].stake
  }

  /** Sequencers stay in range, and farms and pools draw from one sequence without clashing. */
  ghost predicate NumbersOK(farms: set<PoolId>, audited: set<PoolId>, metas: set<PoolId>, rounded: set<PoolId>,
                            poolSeq: nat, nftSeq: nat)
  {
    && poolSeq <= MAX_U32 && nftSeq <= MAX_NFT_SEQUENCE
    && farms <= audited && metas <= rounded
    && (forall f :: f in audited ==> 1 <= f <= poolSeq)
    && (forall p :: p in rounded ==> 1 <= p <= poolSeq)
    && audited !! rounded
  }

  /** A stored pool has a farm and metadata, and metadata names a stored pool only if that is its own pool. */
  ghost predicate LinksOK(ids: map<Key, PoolId>, meta: map<PoolId, Meta>, farms: set<PoolId>) {
    && (forall k :: k in ids ==> k.0 in farms && ids[k] in meta && KeyOf(meta[ids[k]]) == k)
    && (forall p :: p in meta ==> Linked(ids, meta, p))
  }

  predicate Linked(ids: map<Key, PoolId>, meta: map<PoolId, Meta>, p: PoolId)
    requires p in meta
  {
    KeyOf(meta[p]) in ids ==> ids[KeyOf(meta[p])] == p
  }

  /** The NFTs of a pool. */
  function NftsOf(nfts: set<NftId>, p: PoolId): set<NftId> { set n | n in nfts && DecodePool(n) == Some(p) }

  /** NFTs and deposits come in pairs, every deposit's pool has metadata counting it, and metadata without a
      deposit belongs to a stored pool. */
  ghost predicate NftsOK(nfts: set<NftId>, owners: set<NftId>, meta: map<PoolId, Meta>, nftSeq: nat, stored: set<Key>) {
    && owners == nfts
    && (forall n {:trigger NftOK(n, meta.Keys, nftSeq)} :: n in nfts ==> NftOK(n, meta.Keys, nftSeq))
    && (forall p {:trigger CountOK(nfts, meta, p, stored)} :: p in meta ==> CountOK(nfts, meta, p, stored))
  }

  predicate NftOK(n: NftId, metas: set<PoolId>, nftSeq: nat) {
    && DecodePool(n).Some?
    && DecodePool(n).value in metas
    && n / 0x1_0000_0000 <= nftSeq
  }

  predicate CountOK(nfts: set<NftId>, meta: map<PoolId, Meta>, p: PoolId, stored: set<Key>)
    requires p in meta
  {
    && meta[p].count == |NftsOf(nfts, p)|
    && (meta[p].count > 0 || KeyOf(meta[p]) in stored)
  }

  /** What a farm may accrue in a number of periods: at most `rate` in each. */
  function Budget(periods: nat, rate: nat): nat {
    if periods == 0 then 0 else rate + Budget(periods - 1, rate)
  }

  lemma {:induction false} BudgetIsProduct(periods: nat, rate: nat)
    ensures Budget(periods, rate) == periods * rate
  {
    if periods > 0 { BudgetIsProduct(periods - 1, rate); }
  }

  lemma {:induction false} BudgetSplits(periods: nat, more: nat, rate: nat)
    ensures Budget(periods + more, rate) == Budget(periods, rate) + Budget(more, rate)
  {
    if more > 0 { BudgetSplits(periods, more - 1, rate); }
  }

  /** Pacing: accrued rewards are either paid or still owed to pools, and accrue no faster than planned. */
  predicate PacingOK(farm: Farm, a: Audit, now: nat) {
    && Budget(farm.plannedPeriods, farm.maxReward) <= a.totalRewards
    && a.created <= farm.updatedAt <= now
    && farm.accRewards + farm.paidRewards == a.accrued
    && a.accrued <= Budget(farm.updatedAt - a.created, farm.maxReward)
    && a.moved <= farm.paidRewards
  }

  lemma PacingIgnoresTotals(farm: Farm, farm': Farm, a: Audit, now: nat)
    requires PacingOK(farm, a, now)
    requires farm' == farm.(totalSharesZ := farm'.totalSharesZ, livePools := farm'.livePools)
    ensures PacingOK(farm', a, now)
  {
  }

  ghost predicate FarmTotalsOK(farm: Farm, stakes: map<Key, int>) {
    && farm.totalSharesZ == Sum(stakes)
    && farm.livePools == |stakes|
  }

  /** Whole periods up to a block. */
  function Elapsed(block: nat, blocksPerPeriod: nat): nat
    requires blocksPerPeriod > 0
  {
    if block < blocksPerPeriod then 0 else 1 + Elapsed(block - blocksPerPeriod, blocksPerPeriod)
  }

  lemma {:induction false} ElapsedIsPeriod(block: nat, blocksPerPeriod: nat)
    requires blocksPerPeriod > 0
    ensures Period(block, blocksPerPeriod) == Ok(Elapsed(block, blocksPerPeriod))
    decreases block
  {
    if block >= blocksPerPeriod {
      ElapsedIsPeriod(block - blocksPerPeriod, blocksPerPeriod);
      var q := (block - blocksPerPeriod) / blocksPerPeriod;
      FloorBounds(block - blocksPerPeriod, blocksPerPeriod);
      assert (q + 1) * blocksPerPeriod == q * blocksPerPeriod + blocksPerPeriod;
      assert (q + 2) * blocksPerPeriod == q * blocksPerPeriod + 2 * blocksPerPeriod;
      DivAtLeast(block, blocksPerPeriod, q + 1);
      DivBelow(block, blocksPerPeriod, q + 2);
    }
  }

  lemma {:induction false} ElapsedMonotone(block: nat, block': nat, blocksPerPeriod: nat)
    requires blocksPerPeriod > 0 && block <= block'
    ensures Elapsed(block, blocksPerPeriod) <= Elapsed(block', blocksPerPeriod)
    decreases block
  {
    if block >= blocksPerPeriod {
      ElapsedMonotone(block - blocksPerPeriod, block' - blocksPerPeriod, blocksPerPeriod);
    }
  }

  function Now(s: State, f: PoolId): nat
    requires f in s.farms && s.farms[f].blocksPerPeriod > 0
  {
    Elapsed(s.block, s.farms[f].blocksPerPeriod)
  }

  ghost predicate FarmInv(s: State, f: PoolId)
    requires f in s.farms
  {
    && f in s.audit
    && s.farms[f].blocksPerPeriod > 0
    && PacingOK(s.farms[f], s.audit[f], Now(s, f))
    && FarmTotalsOK(s.farms[f], StakesIn(s.pools, f))
  }

  ghost function ViewOf(s: State, k: Key): View
    requires k in s.pools && k.0 in s.farms && s.pools[k].id in s.rounding
  {
    var pool := s.pools[k];
    View(pool, DepositsOf(s.deposits, pool.id), Free(s.ledger, s.farms[k.0].currency, MiningPool(pool.id)),
         s.rounding[pool.id])
  }

  ghost predicate PoolInv(cfg: Config, s: State, k: Key)
    requires k in s.pools
  {
    && k.0 in s.farms && s.farms[k.0].blocksPerPeriod > 0
    && s.pools[k].id in s.rounding
    && s.pools[k].accRpz <= s.farms[k.0].accRpz
    && PoolOK(cfg, ViewOf(s, k), Now(s, k.0))
  }

  ghost predicate StructureOK(s: State) {
    && NumbersOK(s.farms.Keys, s.audit.Keys, s.meta.Keys, s.rounding.Keys, s.poolSeq, s.nftSeq)
    && LinksOK(Ids(s.pools), s.meta, s.farms.Keys)
    && NftsOK(s.deposits.Keys, s.owners.Keys, s.meta, s.nftSeq, s.pools.Keys)
  }

  ghost predicate FarmsOK(s: State) {
    forall f {:trigger FarmInv(s, f)} :: f in s.farms ==> FarmInv(s, f)
  }

  ghost predicate PoolsOK(cfg: Config, s: State) {
    forall k {:trigger PoolInv(cfg, s, k)} :: k in s.pools ==> PoolInv(cfg, s, k)
  }

  ghost predicate Inv(cfg: Config, s: State) {
    && StructureOK(s)
    && FarmsOK(s)
    && PoolsOK(cfg, s)
  }

  // Frames.

  /** A pool no step is about. */
  lemma PoolFrame(cfg: Config, s: State, s': State, k: Key)
    requires k in s.pools && k in s'.pools && PoolInv(cfg, s, k)
    requires s'.pools[k] == s.pools[k]
    requires k.0 in s'.farms && s'.farms[k.0].blocksPerPeriod == s.farms[k.0].blocksPerPeriod
    requires s'.farms[k.0].currency == s.farms[k.0].currency && s.farms[k.0].accRpz <= s'.farms[k.0].accRpz
    requires s.pools[k].id in s'.rounding && s'.rounding[s.pools[k].id] == s.rounding[s.pools[k].id]
    requires DepositsOf(s'.deposits, s.pools[k].id) == DepositsOf(s.deposits, s.pools[k].id)
    requires Free(s.ledger, s.farms[k.0].currency, MiningPool(s.pools[k].id))
          <= Free(s'.ledger, s.farms[k.0].currency, MiningPool(s.pools[k].id))
    requires s.block <= s'.block
    ensures PoolInv(cfg, s', k)
  {
    ElapsedMonotone(s.block, s'.block, s.farms[k.0].blocksPerPeriod);
    DriftKeeps(cfg, ViewOf(s, k), ViewOf(s', k), Now(s, k.0), Now(s', k.0));
  }

  /** A farm no step is about. */
  lemma FarmFrame(s: State, s': State, f: PoolId)
    requires f in s.farms && FarmInv(s, f)
    requires f in s'.farms && f in s'.audit
    requires s'.farms[f] == s.farms[f] && s'.audit[f] == s.audit[f]
    requires StakesIn(s'.pools, f) == StakesIn(s.pools, f)
    requires s.block <= s'.block
    ensures FarmInv(s', f)
  {
    ElapsedMonotone(s.block, s'.block, s.farms[f].blocksPerPeriod);
  }

  lemma DepositsOnChange(deposits: map<NftId, Stake>, n: NftId, d: Stake, p: PoolId)
    ensures DepositsOf(deposits[n := d], p) ==
            if DecodePool(n) == Some(p) then DepositsOf(deposits, p)[n := d] else DepositsOf(deposits, p)
  {
  }

  lemma DepositsOnExit(deposits: map<NftId, Stake>, n: NftId, p: PoolId)
    ensures DepositsOf(deposits - {n}, p) ==
            if DecodePool(n) == Some(p) then DepositsOf(deposits, p) - {n} else DepositsOf(deposits, p)
  {
  }

  /** Distinct stored pools have distinct ids, and no pool's id is its farm's. */
  lemma IdsDistinct(s: State, k: Key, k': Key)
    requires StructureOK(s) && k in s.pools && k' in s.pools
    ensures s.pools[k].id == s.pools[k'].id ==> k == k'
    ensures s.pools[k].id !in s.farms && s.pools[k].id in s.meta && s.pools[k].id in s.rounding
    ensures k.0 in s.farms && k.0 in s.audit && k.0 != 0 && s.pools[k].id != 0
  {
    assert Ids(s.pools)[k] == s.pools[k].id && Ids(s.pools)[k'] == s.pools[k'].id;
  }

  lemma InitialInv(cfg: Config, ledger: Ledger)
    ensures Inv(cfg, Initial(ledger))
  {
  }
}
