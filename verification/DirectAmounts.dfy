/** Direct trades in plain numbers: when one can be prepared, and what everybody has afterwards. */
module DirectAmounts {
  import opened Basics
  import opened Ledgers
  import opened Direct
  import Xyk

  /** The fee on an amount of either asset. */
  function FeeOf(cfg: Xyk.Config, amount: nat): nat
    requires cfg.feeDenominator > 0
  {
    amount / cfg.feeDenominator * cfg.feeNumerator
  }

  /** What `i` pays when it gives `amount`: a buyer pays the fee on top. */
  function Pays(cfg: Xyk.Config, i: Intention, amount: nat): nat
    requires cfg.feeDenominator > 0
  {
    amount + if i.isSell then 0 else FeeOf(cfg, amount)
  }

  /** What `i` gets out of `amount`: a seller's fee is taken off. */
  function Gets(cfg: Xyk.Config, i: Intention, amount: nat): int
    requires cfg.feeDenominator > 0
  {
    amount - if i.isSell then FeeOf(cfg, amount) else 0
  }

  /** Fees are numbers within the amounts, and both sides can pay. */
  predicate Affordable(cfg: Xyk.Config, l: Ledger, a: Intention, b: Intention, fromA: nat, fromB: nat) {
    && cfg.feeDenominator > 0
    && FeeOf(cfg, fromA) <= Min(fromA, MAX_U128) && FeeOf(cfg, fromB) <= Min(fromB, MAX_U128)
    && Pays(cfg, a, fromA) <= Free(l, a.assets.assetIn, User(a.who))
    && Pays(cfg, b, fromB) <= Free(l, a.assets.assetOut, User(b.who))
  }

  lemma PreparedIffAffordable(cfg: Xyk.Config, l: Ledger, a: Intention, b: Intention, pool: AccountId, fromA: nat,
                              fromB: nat)
    requires Opposed(a, b)
    ensures Prepared(cfg, l, a, b, pool, fromA, fromB).1.Some? <==> Affordable(cfg, l, a, b, fromA, fromB)
  {
    hide Free, Prepared;
    PreparedIff(cfg, l, a, b, pool, fromA, fromB);
  }

  /** What a direct trade adds to an account. In each asset the giver pays, the taker gets, and the pool gets the
      difference. */
  function SwapGain(cfg: Xyk.Config, a: Intention, b: Intention, pool: AccountId, fromA: nat, fromB: nat,
                    who: AccountId, asset: AssetId): int
    requires cfg.feeDenominator > 0
  {
    Gain(Pays(cfg, a, fromA), Gets(cfg, b, fromA), User(a.who), User(b.who), pool, who, asset == a.assets.assetIn) +
    Gain(Pays(cfg, b, fromB), Gets(cfg, a, fromB), User(b.who), User(a.who), pool, who, asset == a.assets.assetOut)
  }

  function Gain(paid: int, got: int, giver: AccountId, taker: AccountId, pool: AccountId, who: AccountId,
                concerned: bool): int
  {
    if !concerned then 0
    else
      (if who == taker then got else 0) + (if who == pool then paid - got else 0) -
      (if who == giver then paid else 0)
  }

  /** The transfers of a prepared trade, summed up: what was held and what was brought come to the gain, for every
      account and asset, in all four cases of sellers and buyers. */
  lemma LegsGain(cfg: Xyk.Config, a: Intention, b: Intention, pool: AccountId, fromA: nat, fromB: nat, who: AccountId,
                 asset: AssetId)
    requires Opposed(a, b) && !pool.User? && cfg.feeDenominator > 0
    requires FeeOf(cfg, fromA) <= Min(fromA, MAX_U128) && FeeOf(cfg, fromB) <= Min(fromB, MAX_U128)
    ensures Fee(cfg, fromA) == Some(FeeOf(cfg, fromA)) && Fee(cfg, fromB) == Some(FeeOf(cfg, fromB))
    ensures var legs := Legs(a, b, pool, fromA, fromB, FeeOf(cfg, fromA), FeeOf(cfg, fromB));
            Brought(legs, who, asset) - Held(cfg, a, b, fromA, fromB, who, asset) ==
            SwapGain(cfg, a, b, pool, fromA, fromB, who, asset)
  {
    hide Brought;
    SettledBrought(Legs(a, b, pool, fromA, fromB, FeeOf(cfg, fromA), FeeOf(cfg, fromB)), who, asset);
    hide FeeOf;
  }

  /** A prepared and executed trade changes free balances by the gain and no reserved balance. */
  lemma SwapExact(cfg: Xyk.Config, l: Ledger, a: Intention, b: Intention, pool: AccountId, fromA: nat, fromB: nat,
                  l': Ledger, legs: seq<Leg>, who: AccountId, asset: AssetId)
    requires Opposed(a, b) && !pool.User? && Prepared(cfg, l, a, b, pool, fromA, fromB) == (l', Some(legs))
    ensures cfg.feeDenominator > 0
    ensures Free(Executed(l', legs), asset, who) ==
            Free(l, asset, who) + SwapGain(cfg, a, b, pool, fromA, fromB, who, asset)
    ensures Reserved(Executed(l', legs), asset, who) == Reserved(l, asset, who)
  {
    hide Free, Reserved, Executed, SwapGain, Held, Brought;
    PreparedIffAffordable(cfg, l, a, b, pool, fromA, fromB);
    LegsGain(cfg, a, b, pool, fromA, fromB, who, asset);
    PrepareExecuteExact(cfg, l, a, b, pool, fromA, fromB, l', legs, who, asset);
    LegsOf(cfg, l, a, b, pool, fromA, fromB, l', legs);
  }

  lemma LegsOf(cfg: Xyk.Config, l: Ledger, a: Intention, b: Intention, pool: AccountId, fromA: nat, fromB: nat,
               l': Ledger, legs: seq<Leg>)
    requires cfg.feeDenominator > 0 && FeeOf(cfg, fromA) <= Min(fromA, MAX_U128)
    requires FeeOf(cfg, fromB) <= Min(fromB, MAX_U128)
    requires Prepared(cfg, l, a, b, pool, fromA, fromB) == (l', Some(legs))
    ensures legs == Legs(a, b, pool, fromA, fromB, FeeOf(cfg, fromA), FeeOf(cfg, fromB))
  {
    hide Legs, Free, Reserve;
  }

  /** The same with something in between: executed on a later ledger that has the same reserves, the trade adds its
      gain to whatever the accounts gained meanwhile. */
  lemma SwapOverExact(cfg: Xyk.Config, l: Ledger, a: Intention, b: Intention, pool: AccountId, fromA: nat, fromB: nat,
                      l1: Ledger, legs: seq<Leg>, l2: Ledger, who: AccountId, asset: AssetId)
    requires Opposed(a, b) && !pool.User? && Prepared(cfg, l, a, b, pool, fromA, fromB) == (l1, Some(legs))
    requires l2.reserved == l1.reserved
    ensures cfg.feeDenominator > 0
    ensures Free(Executed(l2, legs), asset, who) ==
            Free(l, asset, who) + SwapGain(cfg, a, b, pool, fromA, fromB, who, asset) +
            (Free(l2, asset, who) - Free(l1, asset, who))
    ensures Reserved(Executed(l2, legs), asset, who) == Reserved(l, asset, who)
  {
    hide Free, Executed, SwapGain, Held, Brought, Prepared;
    PreparedIffAffordable(cfg, l, a, b, pool, fromA, fromB);
    LegsGain(cfg, a, b, pool, fromA, fromB, who, asset);
    LegsOf(cfg, l, a, b, pool, fromA, fromB, l1, legs);
    PreparedHolds(cfg, l, a, b, pool, fromA, fromB, l1, legs, who, asset);
    PreparedCovers(cfg, l, a, b, pool, fromA, fromB, l1, legs);
    CoveredByReserved(l1, l2, legs);
    ExecutedExact(l2, legs, who, asset);
  }
}
