/** The market maker as it runs: stores and ledger rewritten in place. Each method does what the function of the
    same name in `Xyk` says. */
module XykPallet {
  import opened Basics
  import opened Ledgers
  import opened Xyk
  import XykPools
  import opened XykRuns

  class Pallet {
    const cfg: Config
    var shareToken: map<AccountId, AssetId>
    var poolAssets: map<AccountId, (AssetId, AssetId)>
    var totalLiquidity: map<AccountId, nat>
    var ledger: Ledger

    function Storage(): State
      reads this
    {
      State(shareToken, poolAssets, totalLiquidity, ledger)
    }

    constructor (cfg: Config, ledger: Ledger)
      ensures this.cfg == cfg && Storage() == State(map[], map[], map[], ledger)
    {
      this.cfg, this.ledger := cfg, ledger;
      shareToken, poolAssets, totalLiquidity := map[], map[], map[];
    }

    method Restore(s: State)
      modifies this
      ensures Storage() == s
    {
      shareToken, poolAssets, totalLiquidity, ledger := s.shareToken, s.poolAssets, s.totalLiquidity, s.ledger;
    }

    method Move(asset: AssetId, from: AccountId, to: AccountId, amount: nat) returns (r: Result<(), Error>)
      modifies `ledger
      ensures match r
              case Ok(_) => Pay(old(ledger), asset, from, to, amount) == Ok(ledger)
              case Err(e) => Pay(old(ledger), asset, from, to, amount) == Err(e)
    {
      var moved :- Require(Transfer(ledger, asset, from, to, amount), BalanceTooLow(from));
      ledger := moved;
      return Ok(());
    }

    method CreatePool(who: nat, a: AssetId, b: AssetId, amount: nat, price: nat, permitted: bool)
      returns (r: Result<(), Error>)
      modifies this
      ensures Ran(Xyk.CreatePool(cfg, old(Storage()), who, a, b, amount, price, permitted), r, Storage())
    {
      hide Pay, Free, FixedMul;
      if !permitted { return Err(CannotCreatePool); }
      if amount < cfg.minLiquidity { return Err(InsufficientLiquidity); }
      if price == 0 { return Err(ZeroInitialPrice); }
      if a == b { return Err(CannotCreatePoolWithSameAssets); }
      var k := PairId(AssetPair(a, b));
      if k in shareToken { return Err(TokenPoolAlreadyExists); }
      var amountB :- Require(Fits(FixedMul(price, amount)), CreatePoolAssetAmountInvalid);
      if amountB < cfg.minLiquidity { return Err(InsufficientLiquidity); }
      var shares := if a < b then amount else amountB;
      if Free(ledger, a, User(who)) < amount { return Err(InsufficientAssetBalance); }
      if Free(ledger, b, User(who)) < amountB { return Err(InsufficientAssetBalance); }
      var token := cfg.shareTokenOf(k);
      shareToken := shareToken[k := token];
      poolAssets := poolAssets[k := (a, b)];
      var _ :- Move(a, User(who), k, amount);
      var _ :- Move(b, User(who), k, amountB);
      ledger := Deposit(ledger, token, User(who), shares);
      totalLiquidity := totalLiquidity[k := shares];
      return Ok(());
    }

    method AddLiquidity(who: nat, a: AssetId, b: AssetId, amountA: nat, maxB: nat) returns (r: Result<(), Error>)
      modifies `totalLiquidity, `ledger
      ensures Ran(Xyk.AddLiquidity(cfg, old(Storage()), who, a, b, amountA, maxB), r, Storage())
    {
      hide Pay, Free, LiquidityIn;
      var k := PairId(AssetPair(a, b));
      if k !in shareToken { return Err(TokenPoolNotFound); }
      if amountA < cfg.minTrade { return Err(InsufficientTradingAmount); }
      if maxB == 0 { return Err(ZeroLiquidity); }
      if Free(ledger, a, User(who)) < amountA { return Err(InsufficientAssetBalance); }
      if Free(ledger, b, User(who)) < maxB { return Err(InsufficientAssetBalance); }
      var amountB :- Require(LiquidityIn(Free(ledger, a, k), Free(ledger, b, k), amountA), AddAssetAmountInvalid);
      var shares := if a < b then amountA else amountB;
      if amountB > maxB { return Err(AssetAmountExceededLimit); }
      if shares == 0 { return Err(InvalidMintedLiquidity); }
      var token := shareToken[k];
      var held :- Require(CheckedAdd(Free(ledger, token, User(who)), shares), InvalidMintedLiquidity);
      if held < cfg.minLiquidity { return Err(InsufficientLiquidity); }
      var total :- Require(CheckedAdd(if k in totalLiquidity then totalLiquidity[k] else 0, shares),
                           InvalidLiquidityAmount);
      var _ :- Move(a, User(who), k, amountA);
      var _ :- Move(b, User(who), k, amountB);
      ledger := Deposit(ledger, token, User(who), shares);
      totalLiquidity := totalLiquidity[k := total];
      return Ok(());
    }

    method RemoveLiquidity(who: nat, a: AssetId, b: AssetId, amount: nat) returns (r: Result<(), Error>)
      modifies this
      ensures Ran(Xyk.RemoveLiquidity(cfg, old(Storage()), who, a, b, amount), r, Storage())
    {
      hide Pay, Free, LiquidityOut;
      var k := PairId(AssetPair(a, b));
      if amount == 0 { return Err(ZeroLiquidity); }
      if k !in shareToken { return Err(TokenPoolNotFound); }
      var token := shareToken[k];
      var total := if k in totalLiquidity then totalLiquidity[k] else 0;
      var held := Free(ledger, token, User(who));
      if total < amount { return Err(InsufficientLiquidity); }
      if held < amount { return Err(InsufficientAssetBalance); }
      if held - amount < cfg.minLiquidity && held != amount { return Err(InsufficientLiquidity); }
      var outA :- Require(LiquidityOut(Free(ledger, a, k), amount, total), RemoveAssetAmountInvalid);
      var outB :- Require(LiquidityOut(Free(ledger, b, k), amount, total), RemoveAssetAmountInvalid);
      if Free(ledger, a, k) < outA { return Err(InsufficientPoolAssetBalance); }
      if Free(ledger, b, k) < outB { return Err(InsufficientPoolAssetBalance); }
      var _ :- Move(a, k, User(who), outA);
      var _ :- Move(b, k, User(who), outB);
      var burnt :- Require(Withdraw(ledger, token, User(who), amount), BalanceTooLow(User(who)));
      ledger := burnt;
      if total == amount {
        shareToken, poolAssets, totalLiquidity := shareToken - {k}, poolAssets - {k}, totalLiquidity - {k};
      } else {
        totalLiquidity := totalLiquidity[k := total - amount];
      }
      return Ok(());
    }

    method ChargeDiscount(t: AmmTransfer) returns (r: Result<(), Error>)
      modifies `ledger
      ensures match r
              case Ok(_) => Discounted(cfg, old(ledger), t) == Ok(ledger)
              case Err(e) => Discounted(cfg, old(ledger), t) == Err(e)
    {
      if t.discount && t.discountAmount > 0 {
        var burnt :- Require(Withdraw(ledger, cfg.native, User(t.origin), t.discountAmount),
                             BalanceTooLow(User(t.origin)));
        ledger := burnt;
      }
      return Ok(());
    }

    method ExecuteSell(t: AmmTransfer) returns (r: Result<(), Error>)
      modifies `ledger
      ensures match r
              case Ok(_) => Xyk.ExecuteSell(cfg, old(ledger), t) == Ok(ledger)
              case Err(e) => Xyk.ExecuteSell(cfg, old(ledger), t) == Err(e)
    {
      hide Pay, Discounted;
      var k := PairId(t.assets);
      var _ :- ChargeDiscount(t);
      var _ :- Move(t.assets.assetIn, User(t.origin), k, t.amount);
      r := Move(t.assets.assetOut, k, User(t.origin), t.amountOut);
    }

    method ExecuteBuy(t: AmmTransfer) returns (r: Result<(), Error>)
      modifies `ledger
      ensures match r
              case Ok(_) => Xyk.ExecuteBuy(cfg, old(ledger), t) == Ok(ledger)
              case Err(e) => Xyk.ExecuteBuy(cfg, old(ledger), t) == Err(e)
    {
      hide Pay, Discounted;
      var k := PairId(t.assets);
      var _ :- ChargeDiscount(t);
      var _ :- Move(t.assets.assetOut, k, User(t.origin), t.amount);
      r := Move(t.assets.assetIn, User(t.origin), k, t.amountOut + t.fee);
    }

    method Sell(who: nat, assets: AssetPair, amount: nat, minBought: nat, discount: bool) returns (r: Result<(), Error>)
      modifies `ledger
      ensures Ran(Xyk.Sell(cfg, old(Storage()), who, assets, amount, minBought, discount), r, Storage())
    {
      hide ValidateSell, Xyk.ExecuteSell;
      var t :- ValidateSell(cfg, Storage(), who, assets, amount, minBought, discount);
      r := ExecuteSell(t);
    }

    method Buy(who: nat, assets: AssetPair, amount: nat, maxSold: nat, discount: bool) returns (r: Result<(), Error>)
      modifies `ledger
      ensures Ran(Xyk.Buy(cfg, old(Storage()), who, assets, amount, maxSold, discount), r, Storage())
    {
      hide ValidateBuy, Xyk.ExecuteBuy;
      var t :- ValidateBuy(cfg, Storage(), who, assets, amount, maxSold, discount);
      r := ExecuteBuy(t);
    }

    method Perform(c: Call) returns (r: Result<(), Error>)
      modifies this
      ensures Ran(XykRuns.Dispatch(cfg, old(Storage()), c), r, Storage())
    {
      hide Xyk.CreatePool, Xyk.AddLiquidity, Xyk.RemoveLiquidity, Xyk.Sell, Xyk.Buy;
      match c
      case Create(w, a, b, x, p, ok) => r := CreatePool(w, a, b, x, p, ok);
      case Add(w, a, b, x, m) => r := AddLiquidity(w, a, b, x, m);
      case Remove(w, a, b, x) => r := RemoveLiquidity(w, a, b, x);
      case SellCall(w, p, x, m, d) => r := Sell(w, p, x, m, d);
      case BuyCall(w, p, x, m, d) => r := Buy(w, p, x, m, d);
      case Others(l) =>
        ledger := l;
        r := Ok(());
    }

    /** The transaction around a call: an error undoes every write. */
    method Dispatch(c: Call) returns (r: Result<(), Error>)
      modifies this
      ensures Storage() == Step(cfg, old(Storage()), c)
      ensures r.Ok? <==> XykRuns.Dispatch(cfg, old(Storage()), c).Ok?
      ensures r.Err? ==> XykRuns.Dispatch(cfg, old(Storage()), c) == Err(r.error)
      ensures Lawful(cfg) && old(XykPools.Inv(cfg, Storage()) && Allowed(cfg, Storage(), c)) ==>
                XykPools.Inv(cfg, Storage())
    {
      hide XykPools.Inv, XykRuns.Dispatch, Allowed, Lawful;
      var before := Storage();
      r := Perform(c);
      if r.Err? {
        Restore(before);
      }
      if Lawful(cfg) && XykPools.Inv(cfg, before) && Allowed(cfg, before, c) {
        StepKeepsInv(cfg, before, c);
      }
    }
  }
}
