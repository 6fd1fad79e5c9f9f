/** The constant-product market maker: pools, shares and trades. Storage is a value and a call a function to the
    next storage or an error; `XykPallet` runs the same calls in place. */
module Xyk {
  import opened Basics
  import opened Ledgers

  datatype Config = Config(
    native: AssetId,
    feeNumerator: nat,
    feeDenominator: nat,
    minTrade: nat,
    minLiquidity: nat,
    maxIn: nat,
    maxOut: nat,
    shareTokenOf: AccountId -> AssetId)   // the asset registry

  /** Share tokens are registered per pair and are not the native asset. */
  ghost predicate Lawful(cfg: Config) {
    && cfg.minLiquidity > 0
    && (forall k: AccountId :: cfg.shareTokenOf(k) != cfg.native)
    && (forall k: AccountId, k': AccountId :: k != k' && k.XykPair? && k'.XykPair? ==>
          cfg.shareTokenOf(k) != cfg.shareTokenOf(k'))
  }

  datatype State = State(
    shareToken: map<AccountId, AssetId>,
    poolAssets: map<AccountId, (AssetId, AssetId)>,
    totalLiquidity: map<AccountId, nat>,
    ledger: Ledger)

  datatype Error =
    | CannotCreatePool | CannotCreatePoolWithSameAssets | InsufficientLiquidity | InsufficientTradingAmount
    | ZeroLiquidity | ZeroInitialPrice | CreatePoolAssetAmountInvalid | InvalidMintedLiquidity | InvalidLiquidityAmount
    | AssetAmountExceededLimit | AssetAmountNotReachedLimit | InsufficientAssetBalance | InsufficientPoolAssetBalance
    | InsufficientNativeCurrencyBalance | TokenPoolNotFound | TokenPoolAlreadyExists | AddAssetAmountInvalid
    | RemoveAssetAmountInvalid | SellAssetAmountInvalid | BuyAssetAmountInvalid | FeeAmountInvalid
    | CannotApplyDiscount | MaxOutRatioExceeded | MaxInRatioExceeded | Overflow
    | BalanceTooLow(payer: AccountId)

  /** A validated trade. For a sell, `amount` goes in and `amountOut` comes out; for a buy, `amount` comes out and
      `amountOut` plus the fee goes in. */
  datatype AmmTransfer = AmmTransfer(
    origin: nat,
    assets: AssetPair,
    amount: nat,
    amountOut: nat,
    discount: bool,
    discountAmount: nat,
    feeAsset: AssetId,
    fee: nat)

  // The math library.

  function Fits(n: nat): Option<nat> { if n <= MAX_U128 then Some(n) else None }

  function TradeFee(amount: nat, numerator: nat, denominator: nat): Option<nat> {
    if denominator == 0 then None else Fits(amount / denominator * numerator)
  }

  function OutGivenIn(reserveIn: nat, reserveOut: nat, amountIn: nat): Option<nat> {
    if reserveIn + amountIn == 0 then Some(0) else Fits(reserveOut * amountIn / (reserveIn + amountIn))
  }

  function InGivenOut(reserveOut: nat, reserveIn: nat, amountOut: nat): Option<nat> {
    if amountOut >= reserveOut then None else Fits(reserveIn * amountOut / (reserveOut - amountOut) + 1)
  }

  function LiquidityIn(reserveA: nat, reserveB: nat, amountA: nat): Option<nat> {
    if reserveA == 0 then None else Fits(amountA * reserveB / reserveA)
  }

  function LiquidityOut(reserve: nat, shares: nat, totalShares: nat): Option<nat> {
    if totalShares == 0 then None else Fits(shares * reserve / totalShares)
  }

  function SpotPrice(reserveA: nat, reserveB: nat, amount: nat): Option<nat> {
    if reserveA == 0 then None else Fits(amount * reserveB / reserveA)
  }

  // Pools.

  function PairId(pair: AssetPair): AccountId { XykPair(pair.Lo(), pair.Hi()) }

  predicate Exists(s: State, pair: AssetPair) { PairId(pair) in s.shareToken }

  /** Storage maps read with default zero. */
  function TokenAt(s: State, k: AccountId): AssetId { if k in s.shareToken then s.shareToken[k] else 0 }
  function TotalAt(s: State, k: AccountId): nat { if k in s.totalLiquidity then s.totalLiquidity[k] else 0 }

  function Pay(l: Ledger, asset: AssetId, from: AccountId, to: AccountId, amount: nat): Result<Ledger, Error> {
    Require(Transfer(l, asset, from, to, amount), BalanceTooLow(from))
  }

  function Burn(l: Ledger, asset: AssetId, who: AccountId, amount: nat): Result<Ledger, Error> {
    Require(Withdraw(l, asset, who, amount), BalanceTooLow(who))
  }

  function CreatePool(cfg: Config, s: State, who: nat, a: AssetId, b: AssetId, amount: nat, price: nat, permitted: bool)
    : Result<State, Error>
  {
    var pair := AssetPair(a, b);
    :- Need(permitted, CannotCreatePool);
    :- Need(amount >= cfg.minLiquidity, InsufficientLiquidity);
    :- Need(price != 0, ZeroInitialPrice);
    :- Need(a != b, CannotCreatePoolWithSameAssets);
    :- Need(!Exists(s, pair), TokenPoolAlreadyExists);
    var amountB :- Require(Fits(FixedMul(price, amount)), CreatePoolAssetAmountInvalid);
    :- Need(amountB >= cfg.minLiquidity, InsufficientLiquidity);
    var shares := if a < b then amount else amountB;
    :- Need(Free(s.ledger, a, User(who)) >= amount, InsufficientAssetBalance);
    :- Need(Free(s.ledger, b, User(who)) >= amountB, InsufficientAssetBalance);
    var k := PairId(pair);
    var l1 :- Pay(s.ledger, a, User(who), k, amount);
    var l2 :- Pay(l1, b, User(who), k, amountB);
    Ok(State(s.shareToken[k := cfg.shareTokenOf(k)], s.poolAssets[k := (a, b)], s.totalLiquidity[k := shares],
             Deposit(l2, cfg.shareTokenOf(k), User(who), shares)))
  }

  function AddLiquidity(cfg: Config, s: State, who: nat, a: AssetId, b: AssetId, amountA: nat,
                        maxB: nat): Result<State, Error>
  {
    var pair := AssetPair(a, b);
    var k := PairId(pair);
    :- Need(Exists(s, pair), TokenPoolNotFound);
    :- Need(amountA >= cfg.minTrade, InsufficientTradingAmount);
    :- Need(maxB != 0, ZeroLiquidity);
    :- Need(Free(s.ledger, a, User(who)) >= amountA, InsufficientAssetBalance);
    :- Need(Free(s.ledger, b, User(who)) >= maxB, InsufficientAssetBalance);
    var amountB :- Require(LiquidityIn(Free(s.ledger, a, k), Free(s.ledger, b, k), amountA), AddAssetAmountInvalid);
    var shares := if a < b then amountA else amountB;
    :- Need(amountB <= maxB, AssetAmountExceededLimit);
    :- Need(shares != 0, InvalidMintedLiquidity);
    var held :- Require(CheckedAdd(Free(s.ledger, TokenAt(s, k), User(who)), shares), InvalidMintedLiquidity);
    :- Need(held >= cfg.minLiquidity, InsufficientLiquidity);
    var total :- Require(CheckedAdd(TotalAt(s, k), shares), InvalidLiquidityAmount);
    var l1 :- Pay(s.ledger, a, User(who), k, amountA);
    var l2 :- Pay(l1, b, User(who), k, amountB);
    Ok(s.(totalLiquidity := s.totalLiquidity[k := total], ledger := Deposit(l2, TokenAt(s, k), User(who), shares)))
  }

  function RemoveLiquidity(cfg: Config, s: State, who: nat, a: AssetId, b: AssetId, amount: nat): Result<State, Error> {
    var pair := AssetPair(a, b);
    var k := PairId(pair);
    :- Need(amount != 0, ZeroLiquidity);
    :- Need(Exists(s, pair), TokenPoolNotFound);
    var token, total := TokenAt(s, k), TotalAt(s, k);
    var held := Free(s.ledger, token, User(who));
    :- Need(total >= amount, InsufficientLiquidity);
    :- Need(held >= amount, InsufficientAssetBalance);
    :- Need(SaturatingSub(held, amount) >= cfg.minLiquidity || held == amount, InsufficientLiquidity);
    var outA :- Require(LiquidityOut(Free(s.ledger, a, k), amount, total), RemoveAssetAmountInvalid);
    var outB :- Require(LiquidityOut(Free(s.ledger, b, k), amount, total), RemoveAssetAmountInvalid);
    :- Need(Free(s.ledger, a, k) >= outA, InsufficientPoolAssetBalance);
    :- Need(Free(s.ledger, b, k) >= outB, InsufficientPoolAssetBalance);
    var l1 :- Pay(s.ledger, a, k, User(who), outA);
    var l2 :- Pay(l1, b, k, User(who), outB);
    var l3 :- Burn(l2, token, User(who), amount);
    if total == amount then
      Ok(State(s.shareToken - {k}, s.poolAssets - {k}, s.totalLiquidity - {k}, l3))
    else
      Ok(s.(totalLiquidity := s.totalLiquidity[k := total - amount], ledger := l3))
  }

  // Trades.

  function FeeOn(cfg: Config, amount: nat, discount: bool): Result<nat, Error> {
    Require(if discount then TradeFee(amount, 7, 10_000) else TradeFee(amount, cfg.feeNumerator, cfg.feeDenominator),
            FeeAmountInvalid)
  }

  /** What the discount costs in the native asset, at the spot price of the pool of `asset` and native. */
  function DiscountFee(cfg: Config, s: State, who: nat, asset: AssetId, fee: nat, discount: bool): Result<nat, Error> {
    if !discount then Ok(0)
    else
      var k := PairId(AssetPair(asset, cfg.native));
      var price :- Require(SpotPrice(Free(s.ledger, asset, k), Free(s.ledger, cfg.native, k), fee),
                           CannotApplyDiscount);
      :- Need(Free(s.ledger, cfg.native, User(who)) >= price, InsufficientNativeCurrencyBalance);
      Ok(price)
  }

  function ValidateSell(cfg: Config, s: State, who: nat, assets: AssetPair, amount: nat, minBought: nat, discount: bool)
    : Result<AmmTransfer, Error>
  {
    var k := PairId(assets);
    :- Need(amount >= cfg.minTrade, InsufficientTradingAmount);
    :- Need(Exists(s, assets), TokenPoolNotFound);
    :- Need(Free(s.ledger, assets.assetIn, User(who)) >= amount, InsufficientAssetBalance);
    :- Need(discount ==> Exists(s, AssetPair(assets.assetIn, cfg.native)), CannotApplyDiscount);
    var reserveIn, reserveOut := Free(s.ledger, assets.assetIn, k), Free(s.ledger, assets.assetOut, k);
    var limit :- Require(CheckedDiv(reserveIn, cfg.maxIn), Overflow);
    :- Need(amount <= limit, MaxInRatioExceeded);
    var out :- Require(OutGivenIn(reserveIn, reserveOut, amount), SellAssetAmountInvalid);
    var fee :- FeeOn(cfg, out, discount);
    var net :- Require(CheckedSub(out, fee), SellAssetAmountInvalid);
    :- Need(reserveOut > out, InsufficientAssetBalance);
    :- Need(minBought <= net, AssetAmountNotReachedLimit);
    var discountFee :- DiscountFee(cfg, s, who, assets.assetIn, fee, discount);
    Ok(AmmTransfer(who, assets, amount, net, discount, discountFee, assets.assetOut, fee))
  }

  function ValidateBuy(cfg: Config, s: State, who: nat, assets: AssetPair, amount: nat, maxSold: nat, discount: bool)
    : Result<AmmTransfer, Error>
  {
    var k := PairId(assets);
    :- Need(amount >= cfg.minTrade, InsufficientTradingAmount);
    :- Need(Exists(s, assets), TokenPoolNotFound);
    var reserveOut, reserveIn := Free(s.ledger, assets.assetOut, k), Free(s.ledger, assets.assetIn, k);
    :- Need(reserveOut > amount, InsufficientPoolAssetBalance);
    var limit :- Require(CheckedDiv(reserveOut, cfg.maxOut), Overflow);
    :- Need(amount <= limit, MaxOutRatioExceeded);
    :- Need(discount ==> Exists(s, AssetPair(assets.assetOut, cfg.native)), CannotApplyDiscount);
    var price :- Require(InGivenOut(reserveOut, reserveIn, amount), BuyAssetAmountInvalid);
    var fee :- FeeOn(cfg, price, discount);
    var total :- Require(CheckedAdd(price, fee), BuyAssetAmountInvalid);
    :- Need(maxSold >= total, AssetAmountExceededLimit);
    :- Need(Free(s.ledger, assets.assetIn, User(who)) >= total, InsufficientAssetBalance);
    var discountFee :- DiscountFee(cfg, s, who, assets.assetOut, fee, discount);
    Ok(AmmTransfer(who, assets, amount, price, discount, discountFee, assets.assetIn, fee))
  }

  function Discounted(cfg: Config, l: Ledger, t: AmmTransfer): Result<Ledger, Error> {
    if t.discount && t.discountAmount > 0 then Burn(l, cfg.native, User(t.origin), t.discountAmount) else Ok(l)
  }

  /** The ledger after a sell. */
  function ExecuteSell(cfg: Config, l: Ledger, t: AmmTransfer): Result<Ledger, Error> {
    var k := PairId(t.assets);
    var l1 :- Discounted(cfg, l, t);
    var l2 :- Pay(l1, t.assets.assetIn, User(t.origin), k, t.amount);
    Pay(l2, t.assets.assetOut, k, User(t.origin), t.amountOut)
  }

  /** The ledger after a buy. */
  function ExecuteBuy(cfg: Config, l: Ledger, t: AmmTransfer): Result<Ledger, Error> {
    var k := PairId(t.assets);
    var l1 :- Discounted(cfg, l, t);
    var l2 :- Pay(l1, t.assets.assetOut, k, User(t.origin), t.amount);
    Pay(l2, t.assets.assetIn, User(t.origin), k, t.amountOut + t.fee)
  }

  function Sell(cfg: Config, s: State, who: nat, assets: AssetPair, amount: nat, minBought: nat,
                discount: bool): Result<State, Error>
  {
    var t :- ValidateSell(cfg, s, who, assets, amount, minBought, discount);
    var l :- ExecuteSell(cfg, s.ledger, t);
    Ok(s.(ledger := l))
  }

  function Buy(cfg: Config, s: State, who: nat, assets: AssetPair, amount: nat, maxSold: nat,
               discount: bool): Result<State, Error>
  {
    var t :- ValidateBuy(cfg, s, who, assets, amount, maxSold, discount);
    var l :- ExecuteBuy(cfg, s.ledger, t);
    Ok(s.(ledger := l))
  }
}
