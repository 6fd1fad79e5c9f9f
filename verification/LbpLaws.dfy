/** Sales over whole runs: the collector index is exact, the lock is the sum of the fees, a started sale is frozen
    until its end, and weights and fees are what the price formula was asked for. */
module LbpLaws {
  import opened Basics
  import opened Sums
  import opened Rounding
  import opened Ledgers
  import opened Lbp

  function SlotOf(pool: Pool): Slot { (pool.feeCollector, pool.assets.0) }

  /** What validation leaves true of a record for good. */
  predicate Shaped(pool: Pool) {
    && (pool.start.Some? <==> pool.end.Some?)
    && (pool.start.Some? ==> pool.start.value < pool.end.value < pool.start.value + MAX_SALE_DURATION)
    && 0 < pool.initialWeight < MAX_WEIGHT && 0 < pool.finalWeight < MAX_WEIGHT
    && pool.fee.1 != 0
    && pool.assets.0 != pool.assets.1
  }

  /** The collector slots in use. */
  function Slots(pools: map<AccountId, Pool>): set<Slot> { set k | k in pools :: SlotOf(pools[k]) }

  /** No two pools share a slot. */
  ghost predicate Unique(pools: map<AccountId, Pool>) {
    forall k, k' {:trigger SlotOf(pools[k]), SlotOf(pools[k'])} ::
      k in pools && k' in pools && SlotOf(pools[k]) == SlotOf(pools[k']) ==> k == k'
  }

  ghost predicate PoolOk(s: State, k: AccountId)
    requires k in s.pools && k in s.fees
  {
    var pool := s.pools[k];
    && Shaped(pool) && k == PairId(pool.assets.0, pool.assets.1)
    && LockOf(s.locks, SlotOf(pool)) == s.fees[k]
    && (!Started(pool, s.block) ==> s.fees[k] == 0)
  }

  ghost predicate Inv(s: State) {
    && s.fees.Keys == s.pools.Keys
    && (forall k :: k in s.pools ==> PoolOk(s, k))
    && Unique(s.pools)
    && s.collectors == Slots(s.pools)
    && (forall slot :: slot !in s.collectors ==> LockOf(s.locks, slot) == 0)
  }

  // Weights.

  /** A floored weighted average lies between its endpoints. */
  lemma AverageBetween(a: nat, b: nat, m: nat, n: nat, lo: nat, hi: nat)
    requires lo <= a <= hi && lo <= b <= hi && m + n > 0
    ensures lo <= Average(a, b, m, n) <= hi
  {
    MulMonotone(lo, a, m);
    MulMonotone(lo, b, n);
    MulMonotone(a, hi, m);
    MulMonotone(b, hi, n);
    Distribute(lo, m, n);
    Distribute(hi, m, n);
    DivAtLeast(a * m + b * n, m + n, lo);
    Distribute(m + n, hi, 1);
    DivBelow(a * m + b * n, m + n, hi + 1);
  }

  /** At every block of a running sale both weights lie strictly between nothing and everything and add up to
      everything, in whichever order the assets are traded. */
  lemma WeightsInRange(pool: Pool, now: nat, assetIn: AssetId)
    requires Shaped(pool) && Running(pool, now)
    ensures var r := SortedWeights(pool, assetIn, now);
            && r.Ok? && 0 < r.value.0 < MAX_WEIGHT && 0 < r.value.1 < MAX_WEIGHT && r.value.0 + r.value.1 == MAX_WEIGHT
  {
    var start, end := pool.start.value, pool.end.value;
    AverageBetween(pool.initialWeight, pool.finalWeight, end - now, now - start, 1, MAX_WEIGHT - 1);
  }

  /** The weight of the accumulated asset goes from the initial to the final one without turning back. */
  lemma WeightMovesOneWay(start: nat, end: nat, initial: nat, final: nat, t: nat, t': nat)
    requires start < end && start <= t <= t' <= end
    ensures var w, w' := LinearWeight(start, end, initial, final, t), LinearWeight(start, end, initial, final, t');
            && w.Some? && w'.Some?
            && (initial >= final ==> w'.value <= w.value) && (initial <= final ==> w.value <= w'.value)
    ensures LinearWeight(start, end, initial, final, start) == Some(initial)
    ensures LinearWeight(start, end, initial, final, end) == Some(final)
  {
    var d := end - start;
    AverageBetween(initial, initial, d, 0, initial, initial);
    AverageBetween(final, final, 0, d, final, final);
    assert initial * d + final * 0 == initial * d + initial * 0;
    assert initial * 0 + final * d == final * 0 + final * d;
    Distribute(initial, end - t', t' - t);
    Distribute(final, t - start, t' - t);
    var x, x' := initial * (end - t) + final * (t - start), initial * (end - t') + final * (t' - start);
    if initial >= final {
      MulMonotone(final, initial, t' - t);
      DivMonotone(x', x, d);
    }
    if initial <= final {
      MulMonotone(initial, final, t' - t);
      DivMonotone(x, x', d);
    }
  }

  // Fees.

  function TraderPays(t: Trade): nat { t.amount + if t.assets.assetIn == t.feeAsset then t.fee else 0 }
  function PoolPays(t: Trade): nat { t.amountOut + if t.assets.assetIn == t.feeAsset then 0 else t.fee }

  /** In both directions of a sell the trader pays in total exactly the amount the price formula was evaluated at, the
      pool pays in total exactly what it answered, and the trader gets at least the limit. */
  lemma SellAmounts(cfg: Config, s: State, who: nat, assets: AssetPair, amount: nat, minBought: nat, t: Trade)
    requires ValidateSell(cfg, s, who, assets, amount, minBought) == Ok(t)
    ensures var k := PairId(assets.assetIn, assets.assetOut);
            && k in s.pools && Running(s.pools[k], s.block)
            && SortedWeights(s.pools[k], assets.assetIn, s.block).Ok?
            && (var w := SortedWeights(s.pools[k], assets.assetIn, s.block).value;
                cfg.outGivenIn(Free(s.ledger, assets.assetIn, k), Free(s.ledger, assets.assetOut, k),
                               w.0, w.1, amount) == Some(PoolPays(t)))
            && TraderPays(t) == amount && minBought <= t.amountOut
            && 3 * TraderPays(t) <= Free(s.ledger, assets.assetIn, k)
            && 3 * PoolPays(t) <= Free(s.ledger, assets.assetOut, k)
            && t.origin == who && t.assets == assets && t.feeAsset == s.pools[k].assets.0
  {
    hide SortedWeights, Rate, Running, Free, Xyk.TradeFee;
  }

  /** In both directions of a buy the pool pays in total exactly the amount the price formula was evaluated at, the
      trader pays in total exactly what it answered, which is within the limit, and gets the amount asked for. */
  lemma BuyAmounts(cfg: Config, s: State, who: nat, assets: AssetPair, amount: nat, maxSold: nat, t: Trade)
    requires assets.assetIn != assets.assetOut
    requires PairId(assets.assetIn, assets.assetOut) in s.pools ==>
               s.pools[PairId(assets.assetIn, assets.assetOut)].assets.0 in {assets.assetIn, assets.assetOut}
    requires ValidateBuy(cfg, s, who, assets, amount, maxSold) == Ok(t)
    ensures var k := PairId(assets.assetIn, assets.assetOut);
            && k in s.pools && Running(s.pools[k], s.block)
            && SortedWeights(s.pools[k], assets.assetIn, s.block).Ok?
            && (var w := SortedWeights(s.pools[k], assets.assetIn, s.block).value;
                cfg.inGivenOut(Free(s.ledger, assets.assetIn, k), Free(s.ledger, assets.assetOut, k),
                               w.0, w.1, PoolPays(t)) == Some(TraderPays(t)))
            && TraderPays(t) <= maxSold <= Free(s.ledger, assets.assetIn, User(who)) && t.amountOut == amount
            && 3 * TraderPays(t) <= Free(s.ledger, assets.assetIn, k)
            && 3 * amount <= Free(s.ledger, assets.assetOut, k)
            && t.origin == who && t.assets == assets && t.feeAsset == s.pools[k].assets.0
  {
    hide SortedWeights, Rate, Running, Free, Xyk.TradeFee;
  }

  lemma PayMoves(locks: map<Slot, nat>, l: Ledger, asset: AssetId, from: AccountId, to: AccountId, amount: nat,
                 l': Ledger, x: AssetId, w: AccountId)
    requires Pay(locks, l, asset, from, to, amount) == Ok(l')
    ensures Free(l', x, w) ==
            Free(l, x, w) -
            (if x == asset && w == from then amount else 0) + if x == asset && w == to then amount else 0
    ensures Supply(l', x) == Supply(l, x)
  {
    TransferMoves(l, asset, from, to, amount, x, w);
    TransferConserves(l, asset, from, to, amount, x);
    hide Free, Supply, Transfer;
  }

  /** A trade moves exactly these amounts, whoever the collector is, and nothing else: the fee goes to the collector,
      from the trader or from the pool. */
  lemma TradeMoves(s: State, t: Trade, s': State, x: AssetId, w: AccountId)
    requires ExecuteTrade(s, t) == Ok(s')
    ensures var k := PairId(t.assets.assetIn, t.assets.assetOut);
            && k in s.pools
            && Free(s'.ledger, x, w) == Free(s.ledger, x, w)
                 + (if x == t.assets.assetIn
                    then (if w == k then t.amount else 0) - (if w == User(t.origin) then t.amount else 0)
                    else 0)
                 + (if x == t.assets.assetOut
                    then (if w == User(t.origin) then t.amountOut else 0) - (if w == k then t.amountOut else 0)
                    else 0)
                 + (if x == t.feeAsset
                    then (if w == s.pools[k].feeCollector then t.fee else 0) -
                         (if w == (if t.assets.assetIn == t.feeAsset then User(t.origin) else k) then t.fee else 0)
                    else 0)
            && Supply(s'.ledger, x) == Supply(s.ledger, x)
  {
    hide Pay, Free, Supply;
    var k := PairId(t.assets.assetIn, t.assets.assetOut);
    var l1 := Pay(s.locks, s.ledger, t.assets.assetIn, User(t.origin), k, t.amount).value;
    var l2 := Pay(s.locks, l1, t.assets.assetOut, k, User(t.origin), t.amountOut).value;
    PayMoves(s.locks, s.ledger, t.assets.assetIn, User(t.origin), k, t.amount, l1, x, w);
    PayMoves(s.locks, l1, t.assets.assetOut, k, User(t.origin), t.amountOut, l2, x, w);
    PayMoves(s.locks, l2, t.feeAsset, FeePayer(t, k), s.pools[k].feeCollector, t.fee, s'.ledger, x, w);
  }

  /** Two payments in the two assets of a pair from `from` to `to`. */
  ghost predicate PaidBoth(l: Ledger, l': Ledger, from: AccountId, to: AccountId, a: AssetId, amountA: nat, b: AssetId,
                           amountB: nat)
  {
    forall x, w :: Free(l', x, w) == Free(l, x, w)
      + (if x == a then (if w == to then amountA else 0) - (if w == from then amountA else 0) else 0)
      + (if x == b then (if w == to then amountB else 0) - (if w == from then amountB else 0) else 0)
  }

  lemma PayBoth(locks: map<Slot, nat>, l: Ledger, l1: Ledger, l2: Ledger, from: AccountId, to: AccountId, a: AssetId,
                amountA: nat, b: AssetId, amountB: nat)
    requires Pay(locks, l, a, from, to, amountA) == Ok(l1) && Pay(locks, l1, b, from, to, amountB) == Ok(l2)
    ensures PaidBoth(l, l2, from, to, a, amountA, b, amountB)
  {
    hide Pay, Free, Supply;
    forall x, w
      ensures Free(l2, x, w) == Free(l, x, w)
                + (if x == a then (if w == to then amountA else 0) - (if w == from then amountA else 0) else 0)
                + (if x == b then (if w == to then amountB else 0) - (if w == from then amountB else 0) else 0)
    {
      PayMoves(locks, l, a, from, to, amountA, l1, x, w);
      PayMoves(locks, l1, b, from, to, amountB, l2, x, w);
    }
  }

  /** Creating and feeding a pool move exactly the amounts from the owner to the pool; removing one pays the owner both
      reserves entirely. */
  lemma CreateMoves(cfg: Config, s: State, owner: AccountId, a: AssetId, amountA: nat, b: AssetId, amountB: nat,
                    initialWeight: nat, finalWeight: nat, fee: (nat, nat), collector: AccountId, repayTarget: nat,
                    s': State)
    requires CreatePool(cfg, s, owner, a, amountA, b, amountB, initialWeight, finalWeight, fee, collector, repayTarget)
             == Ok(s')
    ensures PaidBoth(s.ledger, s'.ledger, owner, PairId(a, b), a, amountA, b, amountB)
  {
    hide Pay, Free, ValidatePool, PaidBoth;
    var l1 := Pay(s.locks, s.ledger, a, owner, PairId(a, b), amountA).value;
    PayBoth(s.locks, s.ledger, l1, s'.ledger, owner, PairId(a, b), a, amountA, b, amountB);
  }

  lemma AddMoves(s: State, who: nat, a: AssetId, amountA: nat, b: AssetId, amountB: nat, s': State)
    requires AddLiquidity(s, who, a, amountA, b, amountB) == Ok(s')
    ensures PaidBoth(s.ledger, s'.ledger, User(who), PairId(a, b), a, amountA, b, amountB)
    ensures PairId(a, b) in s.pools && s.pools[PairId(a, b)].owner == User(who) && s' == s.(ledger := s'.ledger)
  {
    hide Pay, Free, PaidBoth;
    var l1 := Pay(s.locks, s.ledger, a, User(who), PairId(a, b), amountA).value;
    PayBoth(s.locks, s.ledger, l1, s'.ledger, User(who), PairId(a, b), a, amountA, b, amountB);
  }

  lemma RemoveMoves(s: State, who: nat, k: AccountId, s': State)
    requires RemoveLiquidity(s, who, k) == Ok(s')
    ensures k in s.pools && s.pools[k].owner == User(who)
    ensures var (a, b) := s.pools[k].assets;
            PaidBoth(s.ledger, s'.ledger, k, User(who), a, Free(s.ledger, a, k), b, Free(s.ledger, b, k))
  {
    hide Pay, Free, PaidBoth;
    var (a, b) := s.pools[k].assets;
    var l1 := Pay(s.locks, s.ledger, a, k, User(who), Free(s.ledger, a, k)).value;
    PayBoth(s.locks, s.ledger, l1, s'.ledger, k, User(who), a, Free(s.ledger, a, k), b, Free(s.ledger, b, k));
  }

  // The invariant, call by call.

  lemma CreateKeeps(cfg: Config, s: State, owner: AccountId, a: AssetId, amountA: nat, b: AssetId, amountB: nat,
                    initialWeight: nat, finalWeight: nat, fee: (nat, nat), collector: AccountId, repayTarget: nat,
                    s': State)
    requires Inv(s)
    requires CreatePool(cfg, s, owner, a, amountA, b, amountB, initialWeight, finalWeight, fee, collector, repayTarget)
             == Ok(s')
    ensures Inv(s')
  {
    hide Pay, Free, Slots, Unique, LockOf;
    var k := PairId(a, b);
    var pool := Pool(owner, None, None, (a, b), initialWeight, finalWeight, fee, collector, repayTarget);
    assert k !in s.pools && (collector, a) !in s.collectors && Shaped(pool) && s'.pools == s.pools[k := pool];
    assert s'.collectors == s.collectors + {SlotOf(pool)} && s'.fees == s.fees[k := 0];
    assert s'.locks == s.locks && s'.block == s.block;
    hide CreatePool, ValidatePool, Shaped;
    SlotsSet(s.pools, k, pool);
    assert s'.pools - {k} == s.pools - {k} && s'.fees - {k} == s.fees - {k};
    OnlyPoolInv(s, s', k);
  }

  lemma SlotsSet(pools: map<AccountId, Pool>, k: AccountId, pool: Pool)
    requires Unique(pools)
    requires SlotOf(pool) in Slots(pools) ==> k in pools && SlotOf(pools[k]) == SlotOf(pool)
    ensures Unique(pools[k := pool])
    ensures Slots(pools[k := pool]) ==
            (if k in pools then Slots(pools) - {SlotOf(pools[k])} else Slots(pools)) + {SlotOf(pool)}
  {
    var pools' := pools[k := pool];
    hide SlotOf;
    assert forall j :: j in pools ==> SlotOf(pools[j]) in Slots(pools);
    assert pools'[k] == pool;
    forall j, j' | j in pools' && j' in pools' && SlotOf(pools'[j]) == SlotOf(pools'[j'])
      ensures j == j'
    {
      if j != k { assert pools'[j] == pools[j]; }
      if j' != k { assert pools'[j'] == pools[j']; }
    }
    forall c
      ensures c in Slots(pools') <==>
                c in (if k in pools then Slots(pools) - {SlotOf(pools[k])} else Slots(pools)) + {SlotOf(pool)}
    {
      if c in Slots(pools) && (k in pools ==> c != SlotOf(pools[k])) {
        var j :| j in pools && SlotOf(pools[j]) == c;
        assert j != k && pools'[j] == pools[j];
      }
      if c in Slots(pools') && c != SlotOf(pool) {
        var j :| j in pools' && SlotOf(pools'[j]) == c;
        assert j != k && pools'[j] == pools[j];
      }
    }
  }

  lemma SlotsDrop(pools: map<AccountId, Pool>, k: AccountId)
    requires Unique(pools) && k in pools
    ensures Unique(pools - {k}) && Slots(pools - {k}) == Slots(pools) - {SlotOf(pools[k])}
  {
    var pools' := pools - {k};
    hide SlotOf;
    forall c
      ensures c in Slots(pools') <==> c in Slots(pools) && c != SlotOf(pools[k])
    {
      if c in Slots(pools) && c != SlotOf(pools[k]) {
        var j :| j in pools && SlotOf(pools[j]) == c;
        assert j in pools' && pools'[j] == pools[j];
      }
      if c in Slots(pools') {
        var j :| j in pools' && SlotOf(pools'[j]) == c;
        assert j in pools && pools'[j] == pools[j];
      }
    }
  }

  /** Only the record, the lock and the history of the pool `k` differ. */
  ghost predicate OnlyPool(s: State, s': State, k: AccountId) {
    && s'.fees.Keys == s'.pools.Keys && s'.block == s.block
    && s'.pools - {k} == s.pools - {k} && s'.fees - {k} == s.fees - {k}
    && (forall j :: j != k && j in s.pools ==>
          LockOf(s'.locks, SlotOf(s.pools[j])) == LockOf(s.locks, SlotOf(s.pools[j])))
  }

  lemma OthersOk(s: State, s': State, k: AccountId, j: AccountId)
    requires Inv(s) && OnlyPool(s, s', k) && j != k && j in s'.pools
    ensures j in s.pools && s'.pools[j] == s.pools[j] && PoolOk(s', j)
  {
    assert j in s'.pools - {k} && j in s.pools - {k};
    assert (s'.pools - {k})[j] == s'.pools[j] && (s.pools - {k})[j] == s.pools[j];
    assert PoolOk(s, j);
    assert j in s'.fees - {k} && (s'.fees - {k})[j] == s'.fees[j] && (s.fees - {k})[j] == s.fees[j];
  }

  lemma OnlyPoolInv(s: State, s': State, k: AccountId)
    requires Inv(s) && OnlyPool(s, s', k)
    requires k in s'.pools ==> PoolOk(s', k)
    requires Unique(s'.pools) && s'.collectors == Slots(s'.pools)
    requires forall slot :: slot !in s'.collectors ==> LockOf(s'.locks, slot) == 0
    ensures Inv(s')
  {
    hide PoolOk, LockOf, Unique, Slots, OnlyPool;
    KeysOf(s, s', k);
    forall j | j in s'.pools && j != k
      ensures PoolOk(s', j)
    {
      OthersOk(s, s', k, j);
    }
  }

  lemma KeysOf(s: State, s': State, k: AccountId)
    requires OnlyPool(s, s', k)
    ensures s'.fees.Keys == s'.pools.Keys
  {
  }

  /** What an update does: the record of a pool that has not started, and the slot with it. */
  lemma UpdateEffect(s: State, who: nat, k: AccountId, u: Update, s': State)
    requires UpdatePool(s, who, k, u) == Ok(s') && k in s.pools && Shaped(s.pools[k])
    requires SlotOf(s.pools[k]) in s.collectors
    ensures var pool, pool' := s.pools[k], Updated(s.pools[k], u);
            && s' == s.(pools := s.pools[k := pool'], collectors := s.collectors - {SlotOf(pool)} + {SlotOf(pool')})
            && User(who) == pool.owner && !Started(pool, s.block) && !Started(pool', s.block)
            && Shaped(pool') && pool'.assets == pool.assets
            && (SlotOf(pool') == SlotOf(pool) || SlotOf(pool') !in s.collectors)
  {
  }

  lemma UpdateKeeps(s: State, who: nat, k: AccountId, u: Update, s': State)
    requires Inv(s) && UpdatePool(s, who, k, u) == Ok(s')
    ensures Inv(s')
  {
    hide Slots, Unique, LockOf, Shaped, Started, Updated, SlotOf;
    assert PoolOk(s, k);
    SlotIn(s.pools, k);
    UpdateEffect(s, who, k, u, s');
    hide UpdatePool, PairId;
    var pool, pool' := s.pools[k], Updated(s.pools[k], u);
    SlotsSet(s.pools, k, pool');
    OthersElsewhere(s, k);
    assert s'.pools - {k} == s.pools - {k};
    OnlyPoolInv(s, s', k);
  }

  lemma SlotIn(pools: map<AccountId, Pool>, k: AccountId)
    requires k in pools
    ensures SlotOf(pools[k]) in Slots(pools)
  {
  }

  lemma RemovedInv(s: State, s': State, k: AccountId, slot: Slot)
    requires Inv(s) && k in s.pools && slot == SlotOf(s.pools[k])
    requires s'.pools == s.pools - {k} && s'.fees == s.fees - {k} && s'.block == s.block
    requires s'.collectors == s.collectors - {slot}
    requires forall c {:trigger LockOf(s'.locks, c)} ::
               LockOf(s'.locks, c) == if c == slot then 0 else LockOf(s.locks, c)
    ensures Inv(s')
  {
    hide Slots, Unique, LockOf, SlotOf, PoolOk;
    SlotsDrop(s.pools, k);
    OthersElsewhere(s, k);
    OnlyPoolInv(s, s', k);
  }

  lemma RemoveKeeps(s: State, who: nat, k: AccountId, s': State)
    requires Inv(s) && RemoveLiquidity(s, who, k) == Ok(s')
    ensures Inv(s') && k !in s'.pools
    ensures Free(s'.ledger, s.pools[k].assets.0, k) == 0 && Free(s'.ledger, s.pools[k].assets.1, k) == 0
  {
    hide Slots, Unique, Free, Pay, LockOf;
    assert PoolOk(s, k);
    DrainsPool(s, who, k, s');
    hide Inv, RemoveLiquidity;
    RemovedInv(s, s', k, SlotOf(s.pools[k]));
  }

  /** The slot of a pool is nobody else's. */
  lemma OthersElsewhere(s: State, k: AccountId)
    requires Inv(s) && k in s.pools
    ensures forall j :: j != k && j in s.pools ==> SlotOf(s.pools[j]) != SlotOf(s.pools[k])
  {
    hide PoolOk;
  }

  /** Nothing of the asset is in the pool, or nothing of it is locked there. */
  predicate Releasable(s: State, k: AccountId, asset: AssetId) {
    Free(s.ledger, asset, k) == 0 || LockOf(s.locks, (k, asset)) == 0
  }

  lemma PayAllIff(locks: map<Slot, nat>, l: Ledger, asset: AssetId, from: AccountId, to: AccountId)
    requires from != to
    ensures Pay(locks, l, asset, from, to, Free(l, asset, from)).Ok? <==>
              Free(l, asset, from) == 0 || LockOf(locks, (from, asset)) == 0
  {
  }

  /** A pool can be removed exactly by its owner, while its sale is not running, and when neither reserve is held back
      by a
      collector lock on the pool's own account. */
  lemma RemoveSucceedsIff(s: State, who: nat, k: AccountId)
    requires Inv(s)
    ensures RemoveLiquidity(s, who, k).Ok? <==>
              && k in s.pools && User(who) == s.pools[k].owner && !Running(s.pools[k], s.block)
              && Releasable(s, k, s.pools[k].assets.0) && Releasable(s, k, s.pools[k].assets.1)
  {
    hide Pay, Free, LockOf, Slots, Unique, Shaped;
    if k in s.pools {
      IsPair(s, k);
      var (a, b) := s.pools[k].assets;
      PayAllIff(s.locks, s.ledger, a, k, User(who));
      var r := Pay(s.locks, s.ledger, a, k, User(who), Free(s.ledger, a, k));
      if r.Ok? {
        PayMoves(s.locks, s.ledger, a, k, User(who), Free(s.ledger, a, k), r.value, b, k);
        PayAllIff(s.locks, r.value, b, k, User(who));
      }
    }
  }

  lemma IsPair(s: State, k: AccountId)
    requires Inv(s) && k in s.pools
    ensures k.LbpPair? && s.pools[k].assets.0 != s.pools[k].assets.1
  {
    assert PoolOk(s, k);
  }

  /** A sale that collects its fees in its own pool can never be removed by anybody while the pool holds anything of the
      accumulated asset: the lock goes only after the transfer it blocks. */
  lemma SelfCollectorStuck(s: State, who: nat, k: AccountId)
    requires Inv(s) && k in s.pools && s.pools[k].feeCollector == k
    requires Collected(s, s.pools[k]) > 0 && Free(s.ledger, s.pools[k].assets.0, k) > 0
    ensures RemoveLiquidity(s, who, k).Err?
  {
    hide Inv, Free;
    RemoveSucceedsIff(s, who, k);
  }

  /** What a removal does to storage, and that it empties both reserves. */
  lemma DrainsPool(s: State, who: nat, k: AccountId, s': State)
    requires RemoveLiquidity(s, who, k) == Ok(s') && k in s.pools && k.LbpPair?
    requires s.pools[k].assets.0 != s.pools[k].assets.1
    ensures s'.pools == s.pools - {k} && s'.fees == s.fees - {k} && s'.block == s.block
    ensures s'.collectors == s.collectors - {SlotOf(s.pools[k])}
    ensures forall slot {:trigger LockOf(s'.locks, slot)} ::
              LockOf(s'.locks, slot) == if slot == SlotOf(s.pools[k]) then 0 else LockOf(s.locks, slot)
    ensures Free(s'.ledger, s.pools[k].assets.0, k) == 0 && Free(s'.ledger, s.pools[k].assets.1, k) == 0
  {
    hide Pay, Free;
    var (a, b) := s.pools[k].assets;
    var l1 := Pay(s.locks, s.ledger, a, k, User(who), Free(s.ledger, a, k)).value;
    PayMoves(s.locks, s.ledger, a, k, User(who), Free(s.ledger, a, k), l1, a, k);
    PayMoves(s.locks, s.ledger, a, k, User(who), Free(s.ledger, a, k), l1, b, k);
    PayMoves(s.locks, l1, b, k, User(who), Free(s.ledger, b, k), s'.ledger, b, k);
    PayMoves(s.locks, l1, b, k, User(who), Free(s.ledger, b, k), s'.ledger, a, k);
  }

  /** A trade adds its fee to the lock and to the history, and changes no record. */
  lemma TradeStorage(s: State, t: Trade, s': State)
    requires ExecuteTrade(s, t) == Ok(s')
    ensures var k := PairId(t.assets.assetIn, t.assets.assetOut);
            && k in s.pools && s'.pools == s.pools && s'.collectors == s.collectors && s'.block == s.block
            && s'.fees == s.fees[k := FeesOf(s, k) + t.fee]
            && forall slot {:trigger LockOf(s'.locks, slot)} ::
                 t.feeAsset == s.pools[k].assets.0 ==>
                 LockOf(s'.locks, slot) == LockOf(s.locks, slot) + if slot == SlotOf(s.pools[k]) then t.fee else 0
  {
    hide Pay, Free;
  }

  lemma ChargedInv(s: State, s': State, k: AccountId, slot: Slot, fee: nat)
    requires Inv(s) && k in s.pools && slot == SlotOf(s.pools[k]) && Started(s.pools[k], s.block)
    requires s'.pools == s.pools && s'.collectors == s.collectors && s'.block == s.block
    requires s'.fees == s.fees[k := FeesOf(s, k) + fee]
    requires forall c {:trigger LockOf(s'.locks, c)} ::
               LockOf(s'.locks, c) == LockOf(s.locks, c) + if c == slot then fee else 0
    ensures Inv(s')
  {
    hide Slots, Unique, LockOf, SlotOf, Shaped, PairId, Started;
    assert PoolOk(s, k);
    OthersElsewhere(s, k);
    SlotIn(s.pools, k);
    assert s'.fees - {k} == s.fees - {k} && s'.fees.Keys == s'.pools.Keys;
    OnlyPoolInv(s, s', k);
  }

  lemma TradeKeeps(s: State, t: Trade, s': State)
    requires Inv(s) && ExecuteTrade(s, t) == Ok(s')
    requires var k := PairId(t.assets.assetIn, t.assets.assetOut);
             k in s.pools && Running(s.pools[k], s.block) && t.feeAsset == s.pools[k].assets.0
    ensures Inv(s')
  {
    hide Inv, LockOf, ExecuteTrade;
    var k := PairId(t.assets.assetIn, t.assets.assetOut);
    TradeStorage(s, t, s');
    ChargedInv(s, s', k, SlotOf(s.pools[k]), t.fee);
  }

  /** On consistent storage the pool of a pair trades that pair's assets. */
  lemma PoolAssets(s: State, assets: AssetPair)
    requires Inv(s) && PairId(assets.assetIn, assets.assetOut) in s.pools
    ensures assets.assetIn != assets.assetOut
    ensures s.pools[PairId(assets.assetIn, assets.assetOut)].assets.0 in {assets.assetIn, assets.assetOut}
  {
    assert PoolOk(s, PairId(assets.assetIn, assets.assetOut));
  }

  lemma SameStorageKeeps(s: State, s': State)
    requires Inv(s) && s'.pools == s.pools && s'.collectors == s.collectors && s'.locks == s.locks && s'.fees == s.fees
    requires s.block <= s'.block
    ensures Inv(s')
  {
    hide Slots, Unique, LockOf;
    forall j | j in s'.pools
      ensures PoolOk(s', j)
    {
      assert PoolOk(s, j);
    }
  }
}
