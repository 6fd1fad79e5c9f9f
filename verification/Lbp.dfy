/** Liquidity bootstrapping: time-locked sales with moving weights, a fee collector per accumulated asset, and a lock
    on the fees collected. Storage is a value and a call a function to the next storage or an error; `LbpPallet` runs
    the same calls in place. */
module Lbp {
  import opened Basics
  import opened Ledgers
  import Xyk

  const MAX_WEIGHT: nat := 100_000_000
  const MAX_SALE_DURATION: nat := (60 * 60 * 24 / 6) * 14
  const MAX_IN_RATIO: nat := 3
  const MAX_OUT_RATIO: nat := 3

  /** The weighted price formulas of the math library: reserves in and out, weights in and out, amount. */
  datatype Config = Config(
    minLiquidity: nat,
    outGivenIn: (nat, nat, nat, nat, nat) -> Option<nat>,
    inGivenOut: (nat, nat, nat, nat, nat) -> Option<nat>)

  datatype Pool = Pool(
    owner: AccountId,
    start: Option<nat>,
    end: Option<nat>,
    assets: (AssetId, AssetId),   // accumulated, distributed
    initialWeight: nat,
    finalWeight: nat,
    fee: (nat, nat),
    feeCollector: AccountId,
    repayTarget: nat)

  type Slot = (AccountId, AssetId)

  datatype State = State(
    pools: map<AccountId, Pool>,
    collectors: set<Slot>,          // collectors in use, per accumulated asset
    locks: map<Slot, nat>,          // the collector lock
    ledger: Ledger,
    block: nat,
    fees: map<AccountId, nat>)      // history: the fees of all trades on a pool

  datatype Error =
    | InsufficientLiquidity | CannotCreatePoolWithSameAssets | PoolAlreadyExists | FeeCollectorWithAssetAlreadyUsed
    | InsufficientAssetBalance | PoolNotFound | NothingToUpdate | NotOwner
    | SaleStarted | SaleNotEnded | SaleIsNotRunning
    | CannotAddZeroLiquidity | InvalidBlockRange | MaxSaleDurationExceeded | InvalidWeight | FeeAmountInvalid
    | ZeroAmount | MaxInRatioExceeded | MaxOutRatioExceeded | TradingLimitReached | Overflow
    | LiquidityRestricted(payer: AccountId)

  datatype Update = Update(
    owner: Option<AccountId>,
    start: Option<nat>,
    end: Option<nat>,
    initialWeight: Option<nat>,
    finalWeight: Option<nat>,
    fee: Option<(nat, nat)>,
    feeCollector: Option<AccountId>,
    repayTarget: Option<nat>)

  /** A validated trade: `amount` to the pool, `amountOut` to the trader, `fee` of the accumulated asset to the
      collector. */
  datatype Trade = Trade(origin: nat, assets: AssetPair, amount: nat, amountOut: nat, feeAsset: AssetId, fee: nat)

  function PairId(a: AssetId, b: AssetId): AccountId { var p := AssetPair(a, b); LbpPair(p.Lo(), p.Hi()) }

  function LockOf(locks: map<Slot, nat>, slot: Slot): nat { if slot in locks then locks[slot] else 0 }

  function FeesOf(s: State, k: AccountId): nat { if k in s.fees then s.fees[k] else 0 }

  function Or<T>(o: Option<T>, d: T): T { if o.Some? then o.value else d }

  /** A transfer may not dip into what is locked. */
  function Pay(locks: map<Slot, nat>, l: Ledger, asset: AssetId, from: AccountId, to: AccountId,
               amount: nat): Result<Ledger, Error>
  {
    if amount != 0 && from != to && Free(l, asset, from) < amount + LockOf(locks, (from, asset))
    then Err(LiquidityRestricted(from))
    else Require(Transfer(l, asset, from, to, amount), LiquidityRestricted(from))
  }

  // Time and weights.

  /** The floored average of `a` and `b`, `m` to `n`. */
  function Average(a: nat, b: nat, m: nat, n: nat): nat
    requires m + n > 0
  {
    (a * m + b * n) / (m + n)
  }

  /** The linear weight: the average of the endpoints by the blocks to come and the blocks gone. */
  function LinearWeight(start: nat, end: nat, initial: nat, final: nat, at: nat): Option<nat> {
    if start <= at <= end && start < end then Some(Average(initial, final, end - at, at - start)) else None
  }

  function Weights(pool: Pool, at: nat): Result<(nat, nat), Error> {
    match LinearWeight(Or(pool.start, 0), Or(pool.end, 0), pool.initialWeight, pool.finalWeight, at)
    case None => Err(InvalidWeight)
    case Some(w) => Ok((w, SaturatingSub(MAX_WEIGHT, w)))
  }

  function SortedWeights(pool: Pool, assetIn: AssetId, at: nat): Result<(nat, nat), Error> {
    var w :- Weights(pool, at);
    Ok(if assetIn == pool.assets.0 then w else (w.1, w.0))
  }

  /** Start and end are set together, in order and in the future. */
  predicate ValidRange(pool: Pool, now: nat) {
    if pool.start.Some? && pool.end.Some? then now < pool.start.value < pool.end.value
    else pool.start.None? && pool.end.None?
  }

  function ValidatePool(pool: Pool, now: nat): Outcome<Error> {
    if !ValidRange(pool, now) then Fail(InvalidBlockRange)
    else if SaturatingSub(Or(pool.end, 0), Or(pool.start, 0)) >= MAX_SALE_DURATION then Fail(MaxSaleDurationExceeded)
    else if !(0 < pool.initialWeight < MAX_WEIGHT && 0 < pool.finalWeight < MAX_WEIGHT) then Fail(InvalidWeight)
    else if pool.fee.1 == 0 then Fail(FeeAmountInvalid)
    else Pass
  }

  predicate Running(pool: Pool, now: nat) { pool.start.Some? && pool.end.Some?
                                           && pool.start.value <= now <= pool.end.value }
  predicate Started(pool: Pool, now: nat) { pool.start.Some? && pool.start.value <= now }

  // Calls.

  function CreatePool(cfg: Config, s: State, owner: AccountId, a: AssetId, amountA: nat, b: AssetId, amountB: nat,
                      initialWeight: nat, finalWeight: nat, fee: (nat, nat), collector: AccountId,
                      repayTarget: nat): Result<State, Error>
  {
    var k := PairId(a, b);
    :- Need(amountA >= cfg.minLiquidity && amountB >= cfg.minLiquidity, InsufficientLiquidity);
    :- Need(a != b, CannotCreatePoolWithSameAssets);
    :- Need(k !in s.pools, PoolAlreadyExists);
    :- Need((collector, a) !in s.collectors, FeeCollectorWithAssetAlreadyUsed);
    :- Need(Free(s.ledger, a, owner) >= amountA, InsufficientAssetBalance);
    :- Need(Free(s.ledger, b, owner) >= amountB, InsufficientAssetBalance);
    var pool := Pool(owner, None, None, (a, b), initialWeight, finalWeight, fee, collector, repayTarget);
    :- ValidatePool(pool, s.block);
    var l1 :- Pay(s.locks, s.ledger, a, owner, k, amountA);
    var l2 :- Pay(s.locks, l1, b, owner, k, amountB);
    Ok(s.(pools := s.pools[k := pool], collectors := s.collectors + {(collector, a)},
          ledger := l2, fees := s.fees[k := 0]))
  }

  predicate UpdatesSomething(u: Update) {
    u.start.Some? || u.end.Some? || u.initialWeight.Some? || u.finalWeight.Some? ||
    u.fee.Some? || u.feeCollector.Some? || u.repayTarget.Some?
  }

  function Updated(pool: Pool, u: Update): Pool {
    Pool(Or(u.owner, pool.owner),
         if u.start.Some? then u.start else pool.start, if u.end.Some? then u.end else pool.end, pool.assets,
         Or(u.initialWeight, pool.initialWeight), Or(u.finalWeight, pool.finalWeight),
         Or(u.fee, pool.fee), Or(u.feeCollector, pool.feeCollector), Or(u.repayTarget, pool.repayTarget))
  }

  function UpdatePool(s: State, who: nat, k: AccountId, u: Update): Result<State, Error> {
    if k !in s.pools then Err(PoolNotFound)
    else
      var pool := s.pools[k];
      :- Need(UpdatesSomething(u), NothingToUpdate);
      :- Need(User(who) == pool.owner, NotOwner);
      :- Need(!Started(pool, s.block), SaleStarted);
      var a := pool.assets.0;
      :- Need(u.feeCollector.Some? ==> (u.feeCollector.value, a) !in s.collectors, FeeCollectorWithAssetAlreadyUsed);
      var collectors :=
        if u.feeCollector.Some? then s.collectors - {(pool.feeCollector, a)} + {(u.feeCollector.value, a)}
        else s.collectors;
      :- ValidatePool(Updated(pool, u), s.block);
      Ok(s.(pools := s.pools[k := Updated(pool, u)], collectors := collectors))
  }

  function AddLiquidity(s: State, who: nat, a: AssetId, amountA: nat, b: AssetId, amountB: nat): Result<State, Error> {
    var k := PairId(a, b);
    if k !in s.pools then Err(PoolNotFound)
    else
      :- Need(User(who) == s.pools[k].owner, NotOwner);
      :- Need(amountA != 0 || amountB != 0, CannotAddZeroLiquidity);
      :- Need(amountA == 0 || Free(s.ledger, a, User(who)) >= amountA, InsufficientAssetBalance);
      :- Need(amountB == 0 || Free(s.ledger, b, User(who)) >= amountB, InsufficientAssetBalance);
      var l1 :- Pay(s.locks, s.ledger, a, User(who), k, amountA);
      var l2 :- Pay(s.locks, l1, b, User(who), k, amountB);
      Ok(s.(ledger := l2))
  }

  function Collected(s: State, pool: Pool): nat { LockOf(s.locks, (pool.feeCollector, pool.assets.0)) }

  function RemoveLiquidity(s: State, who: nat, k: AccountId): Result<State, Error> {
    if k !in s.pools then Err(PoolNotFound)
    else
      var pool := s.pools[k];
      var slot := (pool.feeCollector, pool.assets.0);
      :- Need(User(who) == pool.owner, NotOwner);
      :- Need(!Running(pool, s.block), SaleNotEnded);
      var l1 :- Pay(s.locks, s.ledger, pool.assets.0, k, User(who), Free(s.ledger, pool.assets.0, k));
      var l2 :- Pay(s.locks, l1, pool.assets.1, k, User(who), Free(s.ledger, pool.assets.1, k));
      Ok(s.(pools := s.pools - {k}, collectors := s.collectors - {slot}, ledger := l2, fees := s.fees - {k},
            locks := if Collected(s, pool) > 0 then s.locks - {slot} else s.locks))
  }

  // Trades.

  /** The repay fee of 20% applies until the target is collected. */
  predicate Repaying(s: State, pool: Pool) { Collected(s, pool) < pool.repayTarget }

  function Rate(s: State, pool: Pool): (nat, nat) { if Repaying(s, pool) then (2, 10) else pool.fee }

  function FeeFor(s: State, pool: Pool, amount: nat): Result<nat, Error> {
    var rate := Rate(s, pool);
    Require(Xyk.TradeFee(amount, rate.0, rate.1), FeeAmountInvalid)
  }

  function ValidateSell(cfg: Config, s: State, who: nat, assets: AssetPair, amount: nat,
                        minBought: nat): Result<Trade, Error>
  {
    var k := PairId(assets.assetIn, assets.assetOut);
    :- Need(amount != 0, ZeroAmount);
    :- Need(Free(s.ledger, assets.assetIn, User(who)) >= amount, InsufficientAssetBalance);
    if k !in s.pools then Err(PoolNotFound)
    else
      var pool := s.pools[k];
      var feeAsset := pool.assets.0;
      :- Need(Running(pool, s.block), SaleIsNotRunning);
      var w :- SortedWeights(pool, assets.assetIn, s.block);
      var rIn, rOut := Free(s.ledger, assets.assetIn, k), Free(s.ledger, assets.assetOut, k);
      :- Need(amount <= rIn / MAX_IN_RATIO, MaxInRatioExceeded);
      if feeAsset == assets.assetIn then
        var fee :- FeeFor(s, pool, amount);
        var out :- Require(cfg.outGivenIn(rIn, rOut, w.0, w.1, amount), Overflow);
        :- Need(out <= rOut / MAX_OUT_RATIO, MaxOutRatioExceeded);
        :- Need(minBought <= out, TradingLimitReached);
        var net :- Require(CheckedSub(amount, fee), Overflow);
        Ok(Trade(who, assets, net, out, feeAsset, fee))
      else
        var out :- Require(cfg.outGivenIn(rIn, rOut, w.0, w.1, amount), Overflow);
        var fee :- FeeFor(s, pool, out);
        var net :- Require(CheckedSub(out, fee), Overflow);
        :- Need(out <= rOut / MAX_OUT_RATIO, MaxOutRatioExceeded);
        :- Need(minBought <= net, TradingLimitReached);
        Ok(Trade(who, assets, amount, net, feeAsset, fee))
  }

  function ValidateBuy(cfg: Config, s: State, who: nat, assets: AssetPair, amount: nat,
                       maxSold: nat): Result<Trade, Error>
  {
    var k := PairId(assets.assetIn, assets.assetOut);
    :- Need(amount != 0, ZeroAmount);
    :- Need(Free(s.ledger, assets.assetIn, User(who)) >= maxSold, InsufficientAssetBalance);
    if k !in s.pools then Err(PoolNotFound)
    else
      var pool := s.pools[k];
      var feeAsset := pool.assets.0;
      :- Need(Running(pool, s.block), SaleIsNotRunning);
      var w :- SortedWeights(pool, assets.assetIn, s.block);
      var rIn, rOut := Free(s.ledger, assets.assetIn, k), Free(s.ledger, assets.assetOut, k);
      :- Need(amount <= rOut / MAX_OUT_RATIO, MaxOutRatioExceeded);
      if feeAsset == assets.assetOut then
        var fee :- FeeFor(s, pool, amount);
        var gross :- Require(CheckedAdd(amount, fee), Overflow);
        var sold :- Require(cfg.inGivenOut(rIn, rOut, w.0, w.1, gross), Overflow);
        :- Need(sold <= rIn / MAX_IN_RATIO, MaxInRatioExceeded);
        :- Need(maxSold >= sold, TradingLimitReached);
        Ok(Trade(who, assets, sold, amount, feeAsset, fee))
      else
        var sold :- Require(cfg.inGivenOut(rIn, rOut, w.0, w.1, amount), Overflow);
        var fee :- FeeFor(s, pool, sold);
        var net :- Require(CheckedSub(sold, fee), Overflow);
        :- Need(sold <= rIn / MAX_IN_RATIO, MaxInRatioExceeded);
        :- Need(maxSold >= sold, TradingLimitReached);
        Ok(Trade(who, assets, net, amount, feeAsset, fee))
  }

  /** The fee is paid by the trader when the accumulated asset comes in, and by the pool when it goes out. */
  function FeePayer(t: Trade, k: AccountId): AccountId { if t.assets.assetIn == t.feeAsset then User(t.origin) else k }

  function ExecuteTrade(s: State, t: Trade): Result<State, Error> {
    var k := PairId(t.assets.assetIn, t.assets.assetOut);
    if k !in s.pools then Err(PoolNotFound)
    else
      var pool := s.pools[k];
      var l1 :- Pay(s.locks, s.ledger, t.assets.assetIn, User(t.origin), k, t.amount);
      var l2 :- Pay(s.locks, l1, t.assets.assetOut, k, User(t.origin), t.amountOut);
      var l3 :- Pay(s.locks, l2, t.feeAsset, FeePayer(t, k), pool.feeCollector, t.fee);
      var total := Collected(s, pool) + t.fee;
      Ok(s.(ledger := l3, fees := s.fees[k := FeesOf(s, k) + t.fee],
            locks := if total == 0 then s.locks else s.locks[(pool.feeCollector, t.feeAsset) := total]))
  }

  function Sell(cfg: Config, s: State, who: nat, assets: AssetPair, amount: nat, minBought: nat): Result<State, Error> {
    var t :- ValidateSell(cfg, s, who, assets, amount, minBought);
    ExecuteTrade(s, t)
  }

  function Buy(cfg: Config, s: State, who: nat, assets: AssetPair, amount: nat, maxSold: nat): Result<State, Error> {
    var t :- ValidateBuy(cfg, s, who, assets, amount, maxSold);
    ExecuteTrade(s, t)
  }
}
