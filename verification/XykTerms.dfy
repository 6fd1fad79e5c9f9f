/** The terms of the market maker in plain numbers: prices, fees and the cost of a discount, and exactly when a trade, a
    new pool or more liquidity is accepted. */
module XykTerms {
  import opened Basics
  import opened Ledgers
  import opened Xyk
  import opened XykTrades
  import opened XykPools
  import XykRuns

  // Prices.

  function ReserveOf(s: State, asset: AssetId, pair: AssetPair): nat { Free(s.ledger, asset, PairId(pair)) }

  /** What selling `amount` yields before the fee: the reserve's share of it, rounded down. */
  function Yield(s: State, assets: AssetPair, amount: nat): nat
    requires ReserveOf(s, assets.assetIn, assets) > 0
  {
    ReserveOf(s, assets.assetOut, assets) * amount / (ReserveOf(s, assets.assetIn, assets) + amount)
  }

  /** What buying `amount` costs before the fee: the least payment, rounded down, and one more. */
  function Cost(s: State, assets: AssetPair, amount: nat): nat
    requires amount < ReserveOf(s, assets.assetOut, assets)
  {
    ReserveOf(s, assets.assetIn, assets) * amount / (ReserveOf(s, assets.assetOut, assets) - amount) + 1
  }

  /** 0.07% with a discount, and the configured fee without; per whole denominator. */
  function FeeTerm(cfg: Config, amount: nat, discount: bool): nat
    requires discount || cfg.feeDenominator > 0
  {
    if discount then amount / 10_000 * 7 else amount / cfg.feeDenominator * cfg.feeNumerator
  }

  /** The price of a discount in the native asset: that of the fee, at the pool of `asset` and the native asset. */
  function DiscountTerm(cfg: Config, s: State, asset: AssetId, fee: nat, discount: bool): nat
    requires discount ==> ReserveOf(s, asset, AssetPair(asset, cfg.native)) > 0
  {
    var pair := AssetPair(asset, cfg.native);
    if !discount then 0 else fee * ReserveOf(s, cfg.native, pair) / ReserveOf(s, asset, pair)
  }

  /** The discount can be had: its pool exists and the trader holds its price. */
  predicate Discountable(cfg: Config, s: State, who: nat, asset: AssetId, fee: nat, discount: bool) {
    discount ==>
      && Exists(s, AssetPair(asset, cfg.native)) && ReserveOf(s, asset, AssetPair(asset, cfg.native)) > 0
      && DiscountTerm(cfg, s, asset, fee, true) <= Min(MAX_U128, Free(s.ledger, cfg.native, User(who)))
  }

  lemma FeeIs(cfg: Config, amount: nat, discount: bool)
    ensures var r := FeeOn(cfg, amount, discount);
            && (r.Ok? <==> (discount || cfg.feeDenominator > 0) && FeeTerm(cfg, amount, discount) <= MAX_U128)
            && (r.Ok? ==> r.value == FeeTerm(cfg, amount, discount))
  {
  }

  lemma DiscountIs(cfg: Config, s: State, who: nat, asset: AssetId, fee: nat, discount: bool)
    requires discount ==> Exists(s, AssetPair(asset, cfg.native))
    ensures var r := DiscountFee(cfg, s, who, asset, fee, discount);
            && (r.Ok? <==> Discountable(cfg, s, who, asset, fee, discount))
            && (r.Ok? ==> r.value == DiscountTerm(cfg, s, asset, fee, discount))
  {
    hide Free;
  }

  // Sells.

  /** A sell is acceptable: large enough, owned, within the share of the reserve, and worth the limit after the fee. */
  predicate SellTerms(cfg: Config, s: State, who: nat, assets: AssetPair, amount: nat, minBought: nat, discount: bool) {
    && Exists(s, assets) && ReserveOf(s, assets.assetIn, assets) > 0 && cfg.maxIn > 0
    && cfg.minTrade <= amount <= Free(s.ledger, assets.assetIn, User(who))
    && amount <= ReserveOf(s, assets.assetIn, assets) / cfg.maxIn
    && var out := Yield(s, assets, amount);
       && out <= MAX_U128 && out < ReserveOf(s, assets.assetOut, assets)
       && (discount || cfg.feeDenominator > 0)
       && var fee := FeeTerm(cfg, out, discount);
          && fee <= out && minBought <= out - fee
          && Discountable(cfg, s, who, assets.assetIn, fee, discount)
  }

  lemma SellAccepted(cfg: Config, s: State, who: nat, assets: AssetPair, amount: nat, minBought: nat, discount: bool)
    requires Exists(s, assets) ==> ReserveOf(s, assets.assetIn, assets) > 0
    ensures var r := ValidateSell(cfg, s, who, assets, amount, minBought, discount);
            && (r.Ok? <==> SellTerms(cfg, s, who, assets, amount, minBought, discount))
            && (r.Ok? ==>
                  var out := Yield(s, assets, amount);
                  var fee := FeeTerm(cfg, out, discount);
                  r.value == AmmTransfer(who, assets, amount, out - fee, discount,
                                         DiscountTerm(cfg, s, assets.assetIn, fee, discount), assets.assetOut, fee))
  {
    hide Free, FeeOn, FeeTerm, DiscountFee, DiscountTerm;
    if Exists(s, assets) {
      var out := Yield(s, assets, amount);
      FeeIs(cfg, out, discount);
      if FeeOn(cfg, out, discount).Ok? && (discount ==> Exists(s, AssetPair(assets.assetIn, cfg.native))) {
        DiscountIs(cfg, s, who, assets.assetIn, FeeTerm(cfg, out, discount), discount);
      }
    }
  }

  // Buys.

  predicate BuyTerms(cfg: Config, s: State, who: nat, assets: AssetPair, amount: nat, maxSold: nat, discount: bool) {
    && Exists(s, assets) && cfg.maxOut > 0 && cfg.minTrade <= amount < ReserveOf(s, assets.assetOut, assets)
    && amount <= ReserveOf(s, assets.assetOut, assets) / cfg.maxOut
    && (discount || cfg.feeDenominator > 0)
    && var cost := Cost(s, assets, amount);
       var fee := FeeTerm(cfg, cost, discount);
       && cost + fee <= Min(MAX_U128, Min(maxSold, Free(s.ledger, assets.assetIn, User(who))))
       && Discountable(cfg, s, who, assets.assetOut, fee, discount)
  }

  lemma BuyAccepted(cfg: Config, s: State, who: nat, assets: AssetPair, amount: nat, maxSold: nat, discount: bool)
    ensures var r := ValidateBuy(cfg, s, who, assets, amount, maxSold, discount);
            && (r.Ok? <==> BuyTerms(cfg, s, who, assets, amount, maxSold, discount))
            && (r.Ok? ==>
                  var cost := Cost(s, assets, amount);
                  var fee := FeeTerm(cfg, cost, discount);
                  r.value == AmmTransfer(who, assets, amount, cost, discount,
                                         DiscountTerm(cfg, s, assets.assetOut, fee, discount), assets.assetIn, fee))
  {
    hide Free, FeeOn, FeeTerm, DiscountFee, DiscountTerm;
    if amount < ReserveOf(s, assets.assetOut, assets) {
      var cost := Cost(s, assets, amount);
      FeeIs(cfg, cost, discount);
      if FeeOn(cfg, cost, discount).Ok? && (discount ==> Exists(s, AssetPair(assets.assetOut, cfg.native))) {
        DiscountIs(cfg, s, who, assets.assetOut, FeeTerm(cfg, cost, discount), discount);
      }
    }
  }

  // What the calls do.

  /** A sell goes through exactly on those terms, and then moves exactly these amounts. */
  lemma SellExact(cfg: Config, s: State, who: nat, assets: AssetPair, amount: nat, minBought: nat, discount: bool)
    requires Lawful(cfg) && Inv(cfg, s)
    ensures var r := Sell(cfg, s, who, assets, amount, minBought, discount);
            && (r.Ok? <==> SellTerms(cfg, s, who, assets, amount, minBought, discount))
            && (r.Ok? ==>
                  var out := Yield(s, assets, amount);
                  var fee := FeeTerm(cfg, out, discount);
                  && r.value == s.(ledger := r.value.ledger)
                  && Traded(cfg, s.ledger, r.value.ledger, who, assets, amount, out - fee,
                            DiscountTerm(cfg, s, assets.assetIn, fee, discount)))
  {
    hide Lawful, Inv, ValidateSell, ExecuteSell, SellTerms, Traded, Free, Yield, FeeTerm, DiscountTerm;
    if Exists(s, assets) { DistinctAssets(cfg, s, assets); }
    SellAccepted(cfg, s, who, assets, amount, minBought, discount);
    XykRuns.SellSucceedsIff(cfg, s, who, assets, amount, minBought, discount);
    var v := ValidateSell(cfg, s, who, assets, amount, minBought, discount);
    if v.Ok? {
      SellNeedsPool(cfg, s, who, assets, amount, minBought, discount);
      SellEffect(cfg, s.ledger, v.value, ExecuteSell(cfg, s.ledger, v.value).value);
      NoDiscount(cfg, s, assets.assetIn, v.value.fee, discount);
    }
  }

  lemma SellNeedsPool(cfg: Config, s: State, who: nat, assets: AssetPair, amount: nat, minBought: nat, discount: bool)
    requires SellTerms(cfg, s, who, assets, amount, minBought, discount)
    ensures Exists(s, assets)
    ensures discount ==> ReserveOf(s, assets.assetIn, AssetPair(assets.assetIn, cfg.native)) > 0
  {
  }

  lemma NoDiscount(cfg: Config, s: State, asset: AssetId, fee: nat, discount: bool)
    requires discount ==> ReserveOf(s, asset, AssetPair(asset, cfg.native)) > 0
    ensures !discount ==> DiscountTerm(cfg, s, asset, fee, discount) == 0
  {
  }

  /** A buy goes through exactly on its terms, if payment and discount together do not exceed the native balance where
      both come out of it; and then moves exactly these amounts. */
  lemma BuyExact(cfg: Config, s: State, who: nat, assets: AssetPair, amount: nat, maxSold: nat, discount: bool)
    requires Lawful(cfg) && Inv(cfg, s)
    ensures var r := Buy(cfg, s, who, assets, amount, maxSold, discount);
            && (r.Ok? <==>
                  && BuyTerms(cfg, s, who, assets, amount, maxSold, discount)
                  && var cost := Cost(s, assets, amount);
                     var fee := FeeTerm(cfg, cost, discount);
                     (discount && assets.assetIn == cfg.native ==>
                        cost + fee + DiscountTerm(cfg, s, assets.assetOut, fee, discount)
                        <= Free(s.ledger, cfg.native, User(who))))
            && (r.Ok? ==>
                  var cost := Cost(s, assets, amount);
                  var fee := FeeTerm(cfg, cost, discount);
                  && r.value == s.(ledger := r.value.ledger)
                  && Traded(cfg, s.ledger, r.value.ledger, who, assets, cost + fee, amount,
                            DiscountTerm(cfg, s, assets.assetOut, fee, discount)))
  {
    hide Lawful, Inv, ValidateBuy, ExecuteBuy, BuyTerms, Traded, Free, Cost, FeeTerm, DiscountTerm;
    if Exists(s, assets) { DistinctAssets(cfg, s, assets); }
    BuyAccepted(cfg, s, who, assets, amount, maxSold, discount);
    XykRuns.BuySucceedsIff(cfg, s, who, assets, amount, maxSold, discount);
    var v := ValidateBuy(cfg, s, who, assets, amount, maxSold, discount);
    if v.Ok? {
      BuyNeedsPool(cfg, s, who, assets, amount, maxSold, discount);
      NoDiscount(cfg, s, assets.assetOut, v.value.fee, discount);
      if ExecuteBuy(cfg, s.ledger, v.value).Ok? {
        BuyEffect(cfg, s.ledger, v.value, ExecuteBuy(cfg, s.ledger, v.value).value);
      }
    }
  }

  lemma BuyNeedsPool(cfg: Config, s: State, who: nat, assets: AssetPair, amount: nat, maxSold: nat, discount: bool)
    requires BuyTerms(cfg, s, who, assets, amount, maxSold, discount)
    ensures Exists(s, assets)
    ensures discount ==> ReserveOf(s, assets.assetOut, AssetPair(assets.assetOut, cfg.native)) > 0
  {
  }

  // Liquidity.

  /** A pool can be founded on two assets that have none, by somebody who holds enough of both at the price given. */
  lemma CreateSucceedsIff(cfg: Config, s: State, who: nat, a: AssetId, b: AssetId, amount: nat, price: nat,
                          permitted: bool)
    ensures CreatePool(cfg, s, who, a, b, amount, price, permitted).Ok? <==>
              && permitted && a != b && price > 0 && PairId(AssetPair(a, b)) !in s.shareToken
              && cfg.minLiquidity <= amount <= Free(s.ledger, a, User(who))
              && cfg.minLiquidity <= price * amount / FIXED_ONE <= Min(MAX_U128, Free(s.ledger, b, User(who)))
  {
    hide Free, Transfer;
    if a != b && amount <= Free(s.ledger, a, User(who)) {
      TransferMoves(s.ledger, a, User(who), PairId(AssetPair(a, b)), amount, b, User(who));
    }
  }

  /** Liquidity can be added in proportion to the reserves, within the caller's limit and means. */
  lemma AddSucceedsIff(cfg: Config, s: State, who: nat, a: AssetId, b: AssetId, amountA: nat, maxB: nat)
    requires Inv(cfg, s)
    ensures var pair := AssetPair(a, b);
            AddLiquidity(cfg, s, who, a, b, amountA, maxB).Ok? <==>
              && Exists(s, pair) && ReserveOf(s, a, pair) > 0
              && cfg.minTrade <= amountA <= Free(s.ledger, a, User(who)) && 0 < maxB <= Free(s.ledger, b, User(who))
              && var amountB := amountA * ReserveOf(s, b, pair) / ReserveOf(s, a, pair);
                 var shares := if a < b then amountA else amountB;
                 && amountB <= Min(maxB, MAX_U128) && shares > 0
                 && cfg.minLiquidity <= Free(s.ledger, TokenAt(s, PairId(pair)), User(who)) + shares <= MAX_U128
                 && TotalAt(s, PairId(pair)) + shares <= MAX_U128
  {
    hide Inv, Free, Transfer;
    if Exists(s, AssetPair(a, b)) { DistinctAssets(cfg, s, AssetPair(a, b)); }
    if amountA <= Free(s.ledger, a, User(who)) {
      TransferMoves(s.ledger, a, User(who), PairId(AssetPair(a, b)), amountA, b, User(who));
    }
  }

  /** Added liquidity: the second amount in proportion to the reserves, rounded down, and as many new shares as the
      amount of the asset with the lower id. */
  lemma AddExact(cfg: Config, s: State, who: nat, a: AssetId, b: AssetId, amountA: nat, maxB: nat, s': State)
    requires Lawful(cfg) && Inv(cfg, s) && AddLiquidity(cfg, s, who, a, b, amountA, maxB) == Ok(s')
    ensures var pair := AssetPair(a, b);
            && Exists(s, pair) && ReserveOf(s, a, pair) > 0
            && var amountB := amountA * ReserveOf(s, b, pair) / ReserveOf(s, a, pair);
               Joined(cfg, s, s', who, a, b, amountA, amountB, if a < b then amountA else amountB)
  {
    hide Lawful, Inv, Joined, AddLiquidity, Free;
    var amountB := AddLiquidityKeeps(cfg, s, who, a, b, amountA, maxB, s');
    AddNeedsPool(cfg, s, who, a, b, amountA, maxB);
    DistinctAssets(cfg, s, AssetPair(a, b));
  }

  lemma AddNeedsPool(cfg: Config, s: State, who: nat, a: AssetId, b: AssetId, amountA: nat, maxB: nat)
    requires AddLiquidity(cfg, s, who, a, b, amountA, maxB).Ok?
    ensures Exists(s, AssetPair(a, b))
  {
    hide Free, Transfer;
  }

  /** Removed liquidity: of either reserve the share that the burnt shares are of all shares, rounded down. */
  lemma RemoveExact(cfg: Config, s: State, who: nat, a: AssetId, b: AssetId, amount: nat, s': State)
    requires Lawful(cfg) && Inv(cfg, s) && RemoveLiquidity(cfg, s, who, a, b, amount) == Ok(s')
    ensures var pair := AssetPair(a, b);
            var total := TotalAt(s, PairId(pair));
            && 0 < amount <= total
            && TotalAt(s', PairId(pair)) == total - amount
            && Moved(s.ledger, s'.ledger, who, PairId(pair), a, b,
                     0 - amount * ReserveOf(s, a, pair) / total, 0 - amount * ReserveOf(s, b, pair) / total,
                     cfg.shareTokenOf(PairId(pair)), 0 - amount)
  {
    hide Lawful, Inv, RemoveLiquidity, Free, Moved;
    var outA, outB := RemoveLiquidityKeeps(cfg, s, who, a, b, amount, s');
  }
}
