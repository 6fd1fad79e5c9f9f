/** Trades: what a validated trade does to the ledger, and why trading alone never takes value out of a pool. */
module XykTrades {
  import opened Basics
  import opened Sums
  import opened Rounding
  import opened Ledgers
  import opened Xyk

  /** The product of a pool's reserves. */
  ghost function Product(l: Ledger, k: AccountId): int
    requires k.XykPair?
  {
    Free(l, k.lo, k) * Free(l, k.hi, k)
  }

  lemma SellMath(reserveIn: nat, reserveOut: nat, x: nat, out: nat)
    requires OutGivenIn(reserveIn, reserveOut, x) == Some(out) && reserveIn + x > 0
    ensures out <= reserveOut
    ensures reserveIn * reserveOut <= (reserveIn + x) * (reserveOut - out)
  {
    FloorBounds(reserveOut * x, reserveIn + x);
    Distribute(reserveOut, reserveIn, x);
    Distribute(reserveIn + x, reserveOut - out, out);
    MulMonotone(x, reserveIn + x, reserveOut);
    if out > reserveOut {
      MulMonotone(reserveOut + 1, out, reserveIn + x);
      Distribute(reserveIn + x, reserveOut, 1);
    }
  }

  lemma BuyMath(reserveOut: nat, reserveIn: nat, y: nat, price: nat)
    requires InGivenOut(reserveOut, reserveIn, y) == Some(price)
    ensures y < reserveOut
    ensures reserveIn * reserveOut <= (reserveIn + price) * (reserveOut - y)
  {
    var d := reserveOut - y;
    FloorBounds(reserveIn * y, d);
    Distribute(d, price - 1, 1);
    Distribute(d, reserveIn, price);
    Distribute(reserveIn, d, y);
  }

  lemma ProductGrows(a: nat, b: nat, b': nat, p: int)
    requires p <= a * b && b <= b'
    ensures p <= a * b'
  {
    MulMonotone(b, b', a);
  }

  /** The native asset burnt by a trade. */
  function Charge(t: AmmTransfer): nat { if t.discount then t.discountAmount else 0 }

  /** The ledger `l'` differs from `l` by a trade of `origin` with the pool of `assets`: `sent` in, `received` out,
      `charge` of the native asset burnt. */
  ghost predicate Traded(cfg: Config, l: Ledger, l': Ledger, origin: nat, assets: AssetPair, sent: nat, received: nat,
                         charge: nat)
  {
    var k := PairId(assets);
    && Free(l', assets.assetIn, k) == Free(l, assets.assetIn, k) + sent
    && received <= Free(l, assets.assetOut, k)
    && Free(l', assets.assetOut, k) == Free(l, assets.assetOut, k) - received
    && (forall a, w :: w != User(origin) && !(w == k && (a == assets.assetIn || a == assets.assetOut)) ==>
          Free(l', a, w) == Free(l, a, w))
    && l'.reserved == l.reserved
    && (forall a :: Supply(l', a) == Supply(l, a) - if a == cfg.native then charge else 0)
  }

  /** The ledger `l'` differs from `l` by a payment. */
  ghost predicate Paid(l: Ledger, l': Ledger, asset: AssetId, from: AccountId, to: AccountId, amount: nat) {
    && amount <= Free(l, asset, from)
    && Free(l', asset, from) == Free(l, asset, from) - amount
    && Free(l', asset, to) == Free(l, asset, to) + amount
    && (forall a, w :: a != asset || (w != from && w != to) ==> Free(l', a, w) == Free(l, a, w))
    && (forall a :: Supply(l', a) == Supply(l, a))
    && l'.reserved == l.reserved
  }

  lemma PayEffect(l: Ledger, asset: AssetId, from: AccountId, to: AccountId, amount: nat, l': Ledger)
    requires Pay(l, asset, from, to, amount) == Ok(l') && from != to
    ensures Paid(l, l', asset, from, to, amount)
  {
    forall a
      ensures Supply(l', a) == Supply(l, a)
    {
      TransferConserves(l, asset, from, to, amount, a);
    }
  }

  lemma DiscountedSupply(cfg: Config, l: Ledger, t: AmmTransfer, l': Ledger)
    requires Discounted(cfg, l, t) == Ok(l')
    ensures forall a :: Supply(l', a) == Supply(l, a) - if a == cfg.native then Charge(t) else 0
    ensures forall a, w :: w != User(t.origin) ==> Free(l', a, w) == Free(l, a, w)
    ensures forall a :: a != cfg.native ==> Free(l', a, User(t.origin)) == Free(l, a, User(t.origin))
    ensures l'.reserved == l.reserved
  {
    if t.discount && t.discountAmount > 0 {
      forall a
        ensures Supply(l', a) == Supply(l, a) - if a == cfg.native then Charge(t) else 0
      {
        WithdrawBurns(l, cfg.native, User(t.origin), t.discountAmount, a);
      }
    }
  }

  lemma SwapEffect(cfg: Config, l1: Ledger, l2: Ledger, l3: Ledger, origin: nat, assets: AssetPair, sent: nat,
                   received: nat)
    requires assets.assetIn != assets.assetOut
    requires || (Pay(l1, assets.assetIn, User(origin), PairId(assets), sent) == Ok(l2) &&
                 Pay(l2, assets.assetOut, PairId(assets), User(origin), received) == Ok(l3))
             || (Pay(l1, assets.assetOut, PairId(assets), User(origin), received) == Ok(l2) &&
                 Pay(l2, assets.assetIn, User(origin), PairId(assets), sent) == Ok(l3))
    ensures Traded(cfg, l1, l3, origin, assets, sent, received, 0)
  {
    hide Pay, Supply, Free;
    if Pay(l1, assets.assetIn, User(origin), PairId(assets), sent) == Ok(l2) &&
       Pay(l2, assets.assetOut, PairId(assets), User(origin), received) == Ok(l3) {
      PayEffect(l1, assets.assetIn, User(origin), PairId(assets), sent, l2);
      PayEffect(l2, assets.assetOut, PairId(assets), User(origin), received, l3);
    } else {
      PayEffect(l1, assets.assetOut, PairId(assets), User(origin), received, l2);
      PayEffect(l2, assets.assetIn, User(origin), PairId(assets), sent, l3);
    }
  }

  lemma SellEffect(cfg: Config, l: Ledger, t: AmmTransfer, l': Ledger)
    requires t.assets.assetIn != t.assets.assetOut && ExecuteSell(cfg, l, t) == Ok(l')
    ensures Traded(cfg, l, l', t.origin, t.assets, t.amount, t.amountOut, Charge(t))
  {
    hide Pay, Discounted, Supply, Free;
    var k := PairId(t.assets);
    var l1 := Discounted(cfg, l, t).value;
    var l2 := Pay(l1, t.assets.assetIn, User(t.origin), k, t.amount).value;
    DiscountedSupply(cfg, l, t, l1);
    SwapEffect(cfg, l1, l2, l', t.origin, t.assets, t.amount, t.amountOut);
  }

  lemma BuyEffect(cfg: Config, l: Ledger, t: AmmTransfer, l': Ledger)
    requires t.assets.assetIn != t.assets.assetOut && ExecuteBuy(cfg, l, t) == Ok(l')
    ensures Traded(cfg, l, l', t.origin, t.assets, t.amountOut + t.fee, t.amount, Charge(t))
  {
    hide Pay, Discounted, Supply, Free;
    var k := PairId(t.assets);
    var l1 := Discounted(cfg, l, t).value;
    var l2 := Pay(l1, t.assets.assetOut, k, User(t.origin), t.amount).value;
    DiscountedSupply(cfg, l, t, l1);
    SwapEffect(cfg, l1, l2, l', t.origin, t.assets, t.amountOut + t.fee, t.amount);
  }

  /** The reserve product after a trade, in the order of the trade's assets. */
  lemma ProductOf(l: Ledger, assets: AssetPair)
    requires assets.assetIn != assets.assetOut
    ensures Product(l, PairId(assets)) ==
            Free(l, assets.assetIn, PairId(assets)) * Free(l, assets.assetOut, PairId(assets))
  {
  }

  /** The pool holds the same in both ledgers. */
  ghost predicate SameReserves(l: Ledger, l': Ledger, k: AccountId) { forall a :: Free(l', a, k) == Free(l, a, k) }

  lemma ValidSellKeepsProduct(cfg: Config, s: State, who: nat, assets: AssetPair, amount: nat, minBought: nat,
                              discount: bool, t: AmmTransfer, l: Ledger, l': Ledger)
    requires ValidateSell(cfg, s, who, assets, amount, minBought, discount) == Ok(t)
    requires assets.assetIn != assets.assetOut && Free(s.ledger, assets.assetIn, PairId(assets)) > 0
    requires SameReserves(s.ledger, l, PairId(assets))
    requires Traded(cfg, l, l', who, assets, t.amount, t.amountOut, Charge(t))
    ensures Product(l, PairId(assets)) <= Product(l', PairId(assets))
    ensures Free(l', assets.assetIn, PairId(assets)) > 0 && Free(l', assets.assetOut, PairId(assets)) > 0
  {
    hide ValidateSell, Supply, OutGivenIn, Free, Charge;
    SellValidated(cfg, s, who, assets, amount, minBought, discount, t);
    var k := PairId(assets);
    var rIn, rOut := Free(s.ledger, assets.assetIn, k), Free(s.ledger, assets.assetOut, k);
    var out := t.amountOut + t.fee;
    SellMath(rIn, rOut, amount, out);
    ProductGrows(rIn + amount, rOut - out, rOut - t.amountOut, rIn * rOut);
    ProductOf(l, assets);
    ProductOf(l', assets);
  }

  lemma ValidBuyKeepsProduct(cfg: Config, s: State, who: nat, assets: AssetPair, amount: nat, maxSold: nat,
                             discount: bool, t: AmmTransfer, l: Ledger, l': Ledger)
    requires ValidateBuy(cfg, s, who, assets, amount, maxSold, discount) == Ok(t)
    requires assets.assetIn != assets.assetOut && Free(s.ledger, assets.assetIn, PairId(assets)) > 0
    requires SameReserves(s.ledger, l, PairId(assets))
    requires Traded(cfg, l, l', who, assets, t.amountOut + t.fee, t.amount, Charge(t))
    ensures Product(l, PairId(assets)) <= Product(l', PairId(assets))
    ensures Free(l', assets.assetIn, PairId(assets)) > 0 && Free(l', assets.assetOut, PairId(assets)) > 0
  {
    hide ValidateBuy, Supply, InGivenOut, Free, Charge;
    BuyValidated(cfg, s, who, assets, amount, maxSold, discount, t);
    var k := PairId(assets);
    var rIn, rOut := Free(s.ledger, assets.assetIn, k), Free(s.ledger, assets.assetOut, k);
    BuyMath(rOut, rIn, amount, t.amountOut);
    ProductGrows(rOut - amount, rIn + t.amountOut, rIn + t.amountOut + t.fee, rIn * rOut);
    ProductOf(l, assets);
    ProductOf(l', assets);
  }

  // Validation is enough.

  /** What validating a sell establishes. */
  lemma SellValidated(cfg: Config, s: State, who: nat, assets: AssetPair, amount: nat, minBought: nat, discount: bool,
                      t: AmmTransfer)
    requires ValidateSell(cfg, s, who, assets, amount, minBought, discount) == Ok(t)
    ensures t.origin == who && t.assets == assets && t.amount == amount && t.discount == discount
    ensures Exists(s, assets) && amount <= Free(s.ledger, assets.assetIn, User(who))
    ensures minBought <= t.amountOut && t.amountOut + t.fee < Free(s.ledger, assets.assetOut, PairId(assets))
    ensures var k := PairId(assets);
            OutGivenIn(Free(s.ledger, assets.assetIn, k), Free(s.ledger, assets.assetOut, k), amount) ==
            Some(t.amountOut + t.fee)
    ensures FeeOn(cfg, t.amountOut + t.fee, discount) == Ok(t.fee)
    ensures cfg.maxIn != 0 && amount <= Free(s.ledger, assets.assetIn, PairId(assets)) / cfg.maxIn
    ensures DiscountFee(cfg, s, who, assets.assetIn, t.fee, discount) == Ok(t.discountAmount)
    ensures Charge(t) <= Free(s.ledger, cfg.native, User(who))
    ensures discount ==> Exists(s, AssetPair(assets.assetIn, cfg.native))
  {
    hide FeeOn, OutGivenIn, SpotPrice, Free;
  }

  /** What validating a buy establishes. */
  lemma BuyValidated(cfg: Config, s: State, who: nat, assets: AssetPair, amount: nat, maxSold: nat, discount: bool,
                     t: AmmTransfer)
    requires ValidateBuy(cfg, s, who, assets, amount, maxSold, discount) == Ok(t)
    ensures t.origin == who && t.assets == assets && t.amount == amount && t.discount == discount
    ensures Exists(s, assets) && amount < Free(s.ledger, assets.assetOut, PairId(assets))
    ensures t.amountOut + t.fee <= maxSold && t.amountOut + t.fee <= Free(s.ledger, assets.assetIn, User(who))
    ensures var k := PairId(assets);
            InGivenOut(Free(s.ledger, assets.assetOut, k), Free(s.ledger, assets.assetIn, k), amount) ==
            Some(t.amountOut)
    ensures FeeOn(cfg, t.amountOut, discount) == Ok(t.fee)
    ensures cfg.maxOut != 0 && amount <= Free(s.ledger, assets.assetOut, PairId(assets)) / cfg.maxOut
    ensures DiscountFee(cfg, s, who, assets.assetOut, t.fee, discount) == Ok(t.discountAmount)
    ensures Charge(t) <= Free(s.ledger, cfg.native, User(who))
    ensures discount ==> Exists(s, AssetPair(assets.assetOut, cfg.native))
  {
    hide FeeOn, InGivenOut, SpotPrice, Free;
  }

  lemma DiscountedOk(cfg: Config, l: Ledger, t: AmmTransfer)
    ensures Discounted(cfg, l, t).Ok? <==> Charge(t) <= Free(l, cfg.native, User(t.origin))
    ensures Discounted(cfg, l, t).Ok? ==>
              Free(Discounted(cfg, l, t).value, cfg.native, User(t.origin)) ==
              Free(l, cfg.native, User(t.origin)) - Charge(t)
  {
  }

  /** A validated sell always executes, discounted or not, and pays at least the caller's limit. */
  lemma ValidatedSellExecutes(cfg: Config, s: State, who: nat, assets: AssetPair, amount: nat, minBought: nat,
                              discount: bool, t: AmmTransfer)
    requires assets.assetIn != assets.assetOut && !Exists(s, AssetPair(cfg.native, cfg.native))
    requires ValidateSell(cfg, s, who, assets, amount, minBought, discount) == Ok(t)
    ensures ExecuteSell(cfg, s.ledger, t).Ok?
    ensures minBought <= t.amountOut && t.amount == amount
  {
    hide ValidateSell, Free, Discounted, Pay, Supply;
    SellValidated(cfg, s, who, assets, amount, minBought, discount, t);
    DiscountedOk(cfg, s.ledger, t);
    var l1 := Discounted(cfg, s.ledger, t).value;
    DiscountedSupply(cfg, s.ledger, t, l1);
    PaySucceedsIff(l1, assets.assetIn, User(who), PairId(assets), amount);
    var l2 := Pay(l1, assets.assetIn, User(who), PairId(assets), amount).value;
    PayEffect(l1, assets.assetIn, User(who), PairId(assets), amount, l2);
    PaySucceedsIff(l2, assets.assetOut, PairId(assets), User(who), t.amountOut);
  }

  lemma PaySucceedsIff(l: Ledger, asset: AssetId, from: AccountId, to: AccountId, amount: nat)
    requires from != to
    ensures Pay(l, asset, from, to, amount).Ok? <==> amount <= Free(l, asset, from)
  {
  }

  /** A validated buy executes exactly when one balance does not have to cover both the payment and the discount:
      with a discount and the native asset sold, validation compares each with the balance separately. */
  lemma ValidatedBuyExecutesIff(cfg: Config, s: State, who: nat, assets: AssetPair, amount: nat, maxSold: nat,
                                discount: bool, t: AmmTransfer)
    requires assets.assetIn != assets.assetOut && !Exists(s, AssetPair(cfg.native, cfg.native))
    requires ValidateBuy(cfg, s, who, assets, amount, maxSold, discount) == Ok(t)
    ensures ExecuteBuy(cfg, s.ledger, t).Ok? <==>
              (assets.assetIn == cfg.native ==>
                 t.amountOut + t.fee + Charge(t) <= Free(s.ledger, cfg.native, User(who)))
    ensures t.amountOut + t.fee <= maxSold && t.amount == amount
  {
    hide ValidateBuy, Free, Discounted, Pay, Supply;
    BuyValidated(cfg, s, who, assets, amount, maxSold, discount, t);
    DiscountedOk(cfg, s.ledger, t);
    var l1 := Discounted(cfg, s.ledger, t).value;
    DiscountedSupply(cfg, s.ledger, t, l1);
    PaySucceedsIff(l1, assets.assetOut, PairId(assets), User(who), amount);
    var l2 := Pay(l1, assets.assetOut, PairId(assets), User(who), amount).value;
    PayEffect(l1, assets.assetOut, PairId(assets), User(who), amount, l2);
    PaySucceedsIff(l2, assets.assetIn, User(who), PairId(assets), t.amountOut + t.fee);
  }
}
