/** The terms of a sale in plain numbers: weights, the repay fee, and exactly when a sale is opened, changed, funded or
    traded on. */
module LbpTerms {
  import opened Basics
  import opened Ledgers
  import opened Lbp
  import opened LbpLaws

  // Fees.

  /** Fees collected so far: the collector's lock on the accumulated asset. */
  function CollectedBy(s: State, pool: Pool): nat {
    var slot := (pool.feeCollector, pool.assets.0);
    if slot in s.locks then s.locks[slot] else 0
  }

  /** The fee on `base`: two tenths until the repay target has been collected, the pool's own fee from then on; per
      whole denominator. */
  function FeeTerm(s: State, pool: Pool, base: nat): nat
    requires CollectedBy(s, pool) < pool.repayTarget || pool.fee.1 > 0
  {
    if CollectedBy(s, pool) < pool.repayTarget then base / 10 * 2 else base / pool.fee.1 * pool.fee.0
  }

  predicate HasFee(s: State, pool: Pool, base: nat) {
    (CollectedBy(s, pool) < pool.repayTarget || pool.fee.1 > 0) && FeeTerm(s, pool, base) <= MAX_U128
  }

  lemma FeeIs(s: State, pool: Pool, base: nat)
    ensures FeeFor(s, pool, base).Ok? <==> HasFee(s, pool, base)
    ensures FeeFor(s, pool, base).Ok? ==> FeeFor(s, pool, base).value == FeeTerm(s, pool, base)
  {
  }

  /** In each of the four cases the fee is taken on: the amount sold, if it is of the accumulated asset; what the price
      formula answers, if that is; the amount bought, if that is; what the buyer has to pay, if that is. */
  lemma SellFee(cfg: Config, s: State, who: nat, assets: AssetPair, amount: nat, minBought: nat, t: Trade)
    requires ValidateSell(cfg, s, who, assets, amount, minBought) == Ok(t)
    ensures var k := PairId(assets.assetIn, assets.assetOut);
            && k in s.pools && (CollectedBy(s, s.pools[k]) < s.pools[k].repayTarget || s.pools[k].fee.1 > 0)
            && t.fee == FeeTerm(s, s.pools[k],
                                if s.pools[k].assets.0 == assets.assetIn then amount else t.amountOut + t.fee)
  {
    hide SortedWeights, Running, Free, FeeFor, FeeTerm;
    var k := PairId(assets.assetIn, assets.assetOut);
    var pool := s.pools[k];
    FeeIs(s, pool, if pool.assets.0 == assets.assetIn then amount else t.amountOut + t.fee);
  }

  lemma BuyFee(cfg: Config, s: State, who: nat, assets: AssetPair, amount: nat, maxSold: nat, t: Trade)
    requires ValidateBuy(cfg, s, who, assets, amount, maxSold) == Ok(t)
    ensures var k := PairId(assets.assetIn, assets.assetOut);
            && k in s.pools && (CollectedBy(s, s.pools[k]) < s.pools[k].repayTarget || s.pools[k].fee.1 > 0)
            && t.fee == FeeTerm(s, s.pools[k],
                                if s.pools[k].assets.0 == assets.assetOut then amount else t.amount + t.fee)
  {
    hide SortedWeights, Running, Free, FeeFor, FeeTerm;
    var k := PairId(assets.assetIn, assets.assetOut);
    var pool := s.pools[k];
    FeeIs(s, pool, if pool.assets.0 == assets.assetOut then amount else t.amount + t.fee);
  }

  // Weights.

  predicate Runs(pool: Pool, now: nat) {
    pool.start.Some? && pool.end.Some? && pool.start.value < pool.end.value && pool.start.value <= now <= pool.end.value
  }

  /** The weight of the accumulated asset: between the two weights by the blocks gone and the blocks to come, rounded
      down. The other asset has the rest of the maximum. */
  function WeightNow(pool: Pool, now: nat): nat
    requires Runs(pool, now)
  {
    var gone: nat, left: nat := now - pool.start.value, pool.end.value - now;
    (pool.initialWeight * left + pool.finalWeight * gone) / (left + gone)
  }

  function WeightIn(pool: Pool, asset: AssetId, now: nat): nat
    requires Runs(pool, now)
  {
    if asset == pool.assets.0 then WeightNow(pool, now) else SaturatingSub(100_000_000, WeightNow(pool, now))
  }

  lemma WeightsAre(pool: Pool, assetIn: AssetId, assetOut: AssetId, now: nat)
    requires Runs(pool, now) && assetIn != assetOut && pool.assets.0 in {assetIn, assetOut}
    ensures SortedWeights(pool, assetIn, now) == Ok((WeightIn(pool, assetIn, now), WeightIn(pool, assetOut, now)))
  {
    ReorderedAverage(pool, now);
    hide Average;
  }

  lemma ReorderedAverage(pool: Pool, now: nat)
    requires Runs(pool, now)
    ensures Average(pool.initialWeight, pool.finalWeight, pool.end.value - now, now - pool.start.value) ==
            WeightNow(pool, now)
  {
  }

  // Trades.

  /** A sell is acceptable: on a running sale, owned, within a third of both reserves, and worth the limit. */
  predicate SellTerms(cfg: Config, s: State, who: nat, assets: AssetPair, amount: nat, minBought: nat) {
    var k := PairId(assets.assetIn, assets.assetOut);
    && k in s.pools && Runs(s.pools[k], s.block) && 0 < amount <= Free(s.ledger, assets.assetIn, User(who))
    && amount <= Free(s.ledger, assets.assetIn, k) / 3
    && var pool, rIn, rOut := s.pools[k], Free(s.ledger, assets.assetIn, k), Free(s.ledger, assets.assetOut, k);
       var out := cfg.outGivenIn(rIn, rOut, WeightIn(pool, assets.assetIn, s.block),
                                 WeightIn(pool, assets.assetOut, s.block), amount);
       && out.Some? && out.value <= rOut / 3
       && if pool.assets.0 == assets.assetIn
          then HasFee(s, pool, amount) && FeeTerm(s, pool, amount) <= amount && minBought <= out.value
          else HasFee(s, pool, out.value) && minBought + FeeTerm(s, pool, out.value) <= out.value
  }

  /** Under the invariant a running sale runs on a proper range, and trades two different assets, one accumulated. */
  lemma RunsIff(s: State, assets: AssetPair)
    requires Inv(s)
    ensures var k := PairId(assets.assetIn, assets.assetOut);
            k in s.pools ==>
              && (Running(s.pools[k], s.block) <==> Runs(s.pools[k], s.block))
              && assets.assetIn != assets.assetOut && s.pools[k].assets.0 in {assets.assetIn, assets.assetOut}
  {
    hide Slots, Unique;
    var k := PairId(assets.assetIn, assets.assetOut);
    if k in s.pools {
      assert PoolOk(s, k);
      PoolAssets(s, assets);
    }
  }

  lemma SellAccepted(cfg: Config, s: State, who: nat, assets: AssetPair, amount: nat, minBought: nat)
    requires Inv(s)
    ensures ValidateSell(cfg, s, who, assets, amount, minBought).Ok? <==>
              SellTerms(cfg, s, who, assets, amount, minBought)
  {
    hide Inv, SortedWeights, Running, Runs, Free, FeeFor, FeeTerm, WeightIn;
    var k := PairId(assets.assetIn, assets.assetOut);
    RunsIff(s, assets);
    if k in s.pools && Runs(s.pools[k], s.block) {
      var pool, rIn, rOut := s.pools[k], Free(s.ledger, assets.assetIn, k), Free(s.ledger, assets.assetOut, k);
      WeightsAre(pool, assets.assetIn, assets.assetOut, s.block);
      FeeIs(s, pool, amount);
      var out := cfg.outGivenIn(rIn, rOut, WeightIn(pool, assets.assetIn, s.block),
                                WeightIn(pool, assets.assetOut, s.block), amount);
      if out.Some? { FeeIs(s, pool, out.value); }
    }
  }

  /** A buy is acceptable: the payment answered by the price formula, fee included, is within the limit and a third of
      the reserve. */
  predicate BuyTerms(cfg: Config, s: State, who: nat, assets: AssetPair, amount: nat, maxSold: nat) {
    var k := PairId(assets.assetIn, assets.assetOut);
    && k in s.pools && Runs(s.pools[k], s.block) && 0 < amount <= Free(s.ledger, assets.assetOut, k) / 3
    && maxSold <= Free(s.ledger, assets.assetIn, User(who))
    && var pool, rIn, rOut := s.pools[k], Free(s.ledger, assets.assetIn, k), Free(s.ledger, assets.assetOut, k);
       var collects := pool.assets.0 == assets.assetOut;
       && (collects ==> HasFee(s, pool, amount) && amount + FeeTerm(s, pool, amount) <= MAX_U128)
       && var gross := amount + if collects then FeeTerm(s, pool, amount) else 0;
          var sold := cfg.inGivenOut(rIn, rOut, WeightIn(pool, assets.assetIn, s.block),
                                     WeightIn(pool, assets.assetOut, s.block), gross);
          && sold.Some? && sold.value <= Min(maxSold, rIn / 3)
          && (!collects ==> HasFee(s, pool, sold.value) && FeeTerm(s, pool, sold.value) <= sold.value)
  }

  lemma BuyAccepted(cfg: Config, s: State, who: nat, assets: AssetPair, amount: nat, maxSold: nat)
    requires Inv(s)
    ensures ValidateBuy(cfg, s, who, assets, amount, maxSold).Ok? <==> BuyTerms(cfg, s, who, assets, amount, maxSold)
  {
    hide Inv, SortedWeights, Running, Runs, Free, FeeFor, FeeTerm, WeightIn;
    var k := PairId(assets.assetIn, assets.assetOut);
    RunsIff(s, assets);
    if k in s.pools && Runs(s.pools[k], s.block) {
      var pool, rIn, rOut := s.pools[k], Free(s.ledger, assets.assetIn, k), Free(s.ledger, assets.assetOut, k);
      WeightsAre(pool, assets.assetIn, assets.assetOut, s.block);
      FeeIs(s, pool, amount);
      var collects := pool.assets.0 == assets.assetOut;
      if !collects || HasFee(s, pool, amount) {
        var gross := amount + if collects then FeeTerm(s, pool, amount) else 0;
        var sold := cfg.inGivenOut(rIn, rOut, WeightIn(pool, assets.assetIn, s.block),
                                   WeightIn(pool, assets.assetOut, s.block), gross);
        if sold.Some? { FeeIs(s, pool, sold.value); }
      }
    }
  }

  /** A trade the trader and the pool can pay for is made, unless a lock on one of the two accounts is in the way. */
  lemma TradeExecutes(s: State, t: Trade)
    requires var k := PairId(t.assets.assetIn, t.assets.assetOut);
             && k in s.pools && t.assets.assetIn != t.assets.assetOut
             && t.feeAsset in {t.assets.assetIn, t.assets.assetOut}
             && TraderPays(t) <= Free(s.ledger, t.assets.assetIn, User(t.origin))
             && PoolPays(t) <= Free(s.ledger, t.assets.assetOut, k)
             && LockOf(s.locks, (User(t.origin), t.assets.assetIn)) == 0 && LockOf(s.locks, (k, t.assets.assetOut)) == 0
    ensures ExecuteTrade(s, t).Ok?
  {
    hide Free, Transfer, LockOf;
    var k := PairId(t.assets.assetIn, t.assets.assetOut);
    PayIff(s.locks, s.ledger, t.assets.assetIn, User(t.origin), k, t.amount);
    var l1 := Pay(s.locks, s.ledger, t.assets.assetIn, User(t.origin), k, t.amount).value;
    PayMoves(s.locks, s.ledger, t.assets.assetIn, User(t.origin), k, t.amount, l1, t.assets.assetOut, k);
    PayMoves(s.locks, s.ledger, t.assets.assetIn, User(t.origin), k, t.amount, l1, t.assets.assetIn, User(t.origin));
    PayIff(s.locks, l1, t.assets.assetOut, k, User(t.origin), t.amountOut);
    var l2 := Pay(s.locks, l1, t.assets.assetOut, k, User(t.origin), t.amountOut).value;
    PayMoves(s.locks, l1, t.assets.assetOut, k, User(t.origin), t.amountOut, l2, t.assets.assetOut, k);
    PayMoves(s.locks, l1, t.assets.assetOut, k, User(t.origin), t.amountOut, l2, t.assets.assetIn, User(t.origin));
    PayIff(s.locks, l2, t.feeAsset, FeePayer(t, k), s.pools[k].feeCollector, t.fee);
    hide Pay;
  }

  lemma PayIff(locks: map<Slot, nat>, l: Ledger, asset: AssetId, from: AccountId, to: AccountId, amount: nat)
    ensures Pay(locks, l, asset, from, to, amount).Ok? <==>
              amount == 0 || from == to || amount + LockOf(locks, (from, asset)) <= Free(l, asset, from)
  {
    hide Free, LockOf;
  }

  // Records.

  /** A record that can be stored now: no dates or proper ones ahead, weights inside the range, a fee that is a
      number. */
  predicate Storable(pool: Pool, now: nat) {
    && (pool.start.Some? <==> pool.end.Some?)
    && (pool.start.Some? ==> now < pool.start.value < pool.end.value < pool.start.value + 201_600)
    && 0 < pool.initialWeight < 100_000_000 && 0 < pool.finalWeight < 100_000_000 && pool.fee.1 > 0
  }

  lemma StorableIff(pool: Pool, now: nat)
    ensures ValidatePool(pool, now).Pass? <==> Storable(pool, now)
  {
  }

  /** A sale is opened exactly on a pair without one, by an owner who can pay both amounts in, with a collector that is
      not in use; its record holds the terms given and no dates. */
  lemma CreateSucceedsIff(cfg: Config, s: State, owner: AccountId, a: AssetId, amountA: nat, b: AssetId, amountB: nat,
                          initialWeight: nat, finalWeight: nat, fee: (nat, nat), collector: AccountId, repayTarget: nat)
    ensures var r := CreatePool(cfg, s, owner, a, amountA, b, amountB, initialWeight, finalWeight, fee, collector,
                                repayTarget);
            var pool := Pool(owner, None, None, (a, b), initialWeight, finalWeight, fee, collector, repayTarget);
            && (r.Ok? <==>
                  && a != b && PairId(a, b) !in s.pools && (collector, a) !in s.collectors && Storable(pool, s.block)
                  && cfg.minLiquidity <= amountA <= Free(s.ledger, a, owner)
                  && cfg.minLiquidity <= amountB <= Free(s.ledger, b, owner)
                  && (owner != PairId(a, b) ==>
                        && (amountA > 0 ==> amountA + LockOf(s.locks, (owner, a)) <= Free(s.ledger, a, owner))
                        && (amountB > 0 ==> amountB + LockOf(s.locks, (owner, b)) <= Free(s.ledger, b, owner))))
            && (r.Ok? ==>
                  && r.value.pools == s.pools[PairId(a, b) := pool]
                  && r.value.collectors == s.collectors + {(collector, a)} && r.value.locks == s.locks)
  {
    hide Free, Transfer, LockOf;
    var k := PairId(a, b);
    StorableIff(Pool(owner, None, None, (a, b), initialWeight, finalWeight, fee, collector, repayTarget), s.block);
    PayIff(s.locks, s.ledger, a, owner, k, amountA);
    if Pay(s.locks, s.ledger, a, owner, k, amountA).Ok? {
      var l1 := Pay(s.locks, s.ledger, a, owner, k, amountA).value;
      PayMoves(s.locks, s.ledger, a, owner, k, amountA, l1, b, owner);
      PayIff(s.locks, l1, b, owner, k, amountB);
    }
    hide Pay, ValidatePool, Storable;
  }

  /** `pool'` is `pool` with the fields of `u` that are given. */
  predicate ChangedBy(pool: Pool, u: Update, pool': Pool) {
    && pool'.assets == pool.assets
    && pool'.owner == (if u.owner.Some? then u.owner.value else pool.owner)
    && pool'.start == (if u.start.Some? then u.start else pool.start)
    && pool'.end == (if u.end.Some? then u.end else pool.end)
    && pool'.initialWeight == (if u.initialWeight.Some? then u.initialWeight.value else pool.initialWeight)
    && pool'.finalWeight == (if u.finalWeight.Some? then u.finalWeight.value else pool.finalWeight)
    && pool'.fee == (if u.fee.Some? then u.fee.value else pool.fee)
    && pool'.feeCollector == (if u.feeCollector.Some? then u.feeCollector.value else pool.feeCollector)
    && pool'.repayTarget == (if u.repayTarget.Some? then u.repayTarget.value else pool.repayTarget)
  }

  /** A sale is changed exactly by its owner, before its start, to a record that can be stored and, if the collector
      changes, one not in use; given fields change, the others stay, and a new owner alone is no change. */
  lemma UpdateSucceedsIff(s: State, who: nat, k: AccountId, u: Update, pool': Pool)
    requires k in s.pools && ChangedBy(s.pools[k], u, pool')
    ensures var r, pool := UpdatePool(s, who, k, u), s.pools[k];
            && (r.Ok? <==>
                  && User(who) == pool.owner && Storable(pool', s.block)
                  && (pool.start.Some? ==> s.block < pool.start.value)
                  && u != Update(u.owner, None, None, None, None, None, None, None)
                  && (u.feeCollector.Some? ==> (u.feeCollector.value, pool.assets.0) !in s.collectors))
            && (r.Ok? ==> r.value == s.(pools := s.pools[k := pool'], collectors := r.value.collectors))
  {
    assert pool' == Updated(s.pools[k], u);
    hide Updated;
    StorableIff(pool', s.block);
    hide ValidatePool, Storable;
  }

  /** The owner can add liquidity, of one asset or both, as long as no lock holds it back. */
  lemma AddSucceedsIff(s: State, who: nat, a: AssetId, amountA: nat, b: AssetId, amountB: nat)
    requires Inv(s)
    ensures AddLiquidity(s, who, a, amountA, b, amountB).Ok? <==>
              && PairId(a, b) in s.pools && s.pools[PairId(a, b)].owner == User(who) && amountA + amountB > 0
              && (amountA > 0 ==> amountA + LockOf(s.locks, (User(who), a)) <= Free(s.ledger, a, User(who)))
              && (amountB > 0 ==> amountB + LockOf(s.locks, (User(who), b)) <= Free(s.ledger, b, User(who)))
  {
    hide Inv, Free, Transfer, LockOf;
    var k := PairId(a, b);
    if k in s.pools { PoolAssets(s, AssetPair(a, b)); }
    PayIff(s.locks, s.ledger, a, User(who), k, amountA);
    if Pay(s.locks, s.ledger, a, User(who), k, amountA).Ok? {
      var l1 := Pay(s.locks, s.ledger, a, User(who), k, amountA).value;
      PayMoves(s.locks, s.ledger, a, User(who), k, amountA, l1, b, User(who));
      PayIff(s.locks, l1, b, User(who), k, amountB);
    }
    hide Pay;
  }
}
