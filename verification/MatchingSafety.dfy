/** Block resolution is safe: whatever the intentions, no pool's reserve product falls and no asset is created or
    destroyed, except the native asset charged as discounts. */
module MatchingSafety {
  import opened Basics
  import opened Rounding
  import opened Ledgers
  import opened Direct
  import opened Matching
  import Xyk
  import opened XykTrades
  import opened XykPools

  ghost predicate KeptPool(l: Ledger, l': Ledger, k: AccountId)
    requires k.XykPair?
  {
    && Product(l, k) <= Product(l', k)
    && (0 < Free(l, k.lo, k) && 0 < Free(l, k.hi, k) ==> 0 < Free(l', k.lo, k) && 0 < Free(l', k.hi, k))
  }

  /** Every pool kept its product, and only `burnt` of the native asset is gone. */
  ghost predicate Kept(cfg: Xyk.Config, l: Ledger, l': Ledger, burnt: int) {
    && (forall k: AccountId :: k.XykPair? ==> KeptPool(l, l', k))
    && (forall x :: Supply(l', x) == Supply(l, x) - if x == cfg.native then burnt else 0)
  }

  lemma KeptTransitive(cfg: Xyk.Config, l: Ledger, l1: Ledger, l2: Ledger, m: int, n: int)
    requires Kept(cfg, l, l1, m) && Kept(cfg, l1, l2, n)
    ensures Kept(cfg, l, l2, m + n)
  {
    hide Product, Supply, Free;
    forall k: AccountId | k.XykPair?
      ensures KeptPool(l, l2, k)
    {
      assert KeptPool(l, l1, k) && KeptPool(l1, l2, k);
    }
  }

  /** No pool account lost anything. */
  ghost predicate Grown(l: Ledger, l': Ledger) {
    && (forall x, k: AccountId :: k.XykPair? ==> Free(l, x, k) <= Free(l', x, k))
    && (forall x :: Supply(l', x) == Supply(l, x))
  }

  lemma GrownKept(cfg: Xyk.Config, l: Ledger, l': Ledger)
    requires Grown(l, l')
    ensures Kept(cfg, l, l', 0)
  {
    hide Supply, Free;
    forall k: AccountId | k.XykPair?
      ensures KeptPool(l, l', k)
    {
      MulMonotone(Free(l, k.lo, k), Free(l', k.lo, k), Free(l, k.hi, k));
      MulMonotone(Free(l, k.hi, k), Free(l', k.hi, k), Free(l', k.lo, k));
    }
  }

  lemma {:induction false} ExecutedGrown(l: Ledger, legs: seq<Leg>)
    ensures Grown(l, Executed(l, legs))
    decreases |legs|
  {
    if legs != [] {
      var rest, leg := legs[..|legs| - 1], legs[|legs| - 1];
      ExecutedGrown(l, rest);
      RepatriateGrown(Executed(l, rest), leg.asset, leg.from, leg.to, leg.amount);
      hide Free, Supply, Repatriate;
    }
  }

  lemma {:induction false} RevertedGrown(l: Ledger, legs: seq<Leg>)
    ensures Grown(l, Reverted(l, legs))
    decreases |legs|
  {
    if legs != [] {
      var rest, leg := legs[..|legs| - 1], legs[|legs| - 1];
      RevertedGrown(l, rest);
      RepatriateGrown(Reverted(l, rest), leg.asset, leg.from, leg.from, leg.amount);
      hide Free, Supply;
    }
  }

  lemma RepatriateGrown(l: Ledger, asset: AssetId, from: AccountId, to: AccountId, amount: nat)
    ensures Grown(l, Repatriate(l, asset, from, to, amount))
  {
    forall x
      ensures Supply(Repatriate(l, asset, from, to, amount), x) == Supply(l, x)
    {
      RepatriateConserves(l, asset, from, to, amount, x);
    }
  }

  /** Reserving moves nothing in or out of the pools. */
  ghost predicate PoolsAlone(l: Ledger, l': Ledger) {
    && (forall x, k: AccountId :: k.XykPair? ==> Free(l', x, k) == Free(l, x, k))
    && (forall x :: Supply(l', x) == Supply(l, x))
  }

  lemma ReservePoolsAlone(l: Ledger, asset: AssetId, who: nat, amount: nat)
    requires amount <= Free(l, asset, User(who))
    ensures PoolsAlone(l, Reserve(l, asset, User(who), amount).value)
  {
    forall x
      ensures Supply(Reserve(l, asset, User(who), amount).value, x) == Supply(l, x)
    {
      ReserveConserves(l, asset, User(who), amount, x);
    }
  }

  lemma PreparedPoolsAlone(cfg: Xyk.Config, l: Ledger, a: Intention, b: Intention, pool: AccountId, fromA: nat,
                           fromB: nat)
    ensures PoolsAlone(l, Prepared(cfg, l, a, b, pool, fromA, fromB).0)
  {
    hide Fee, Legs, Supply, Free, Reserve;
    if Sane(cfg, l, a, b, fromA, fromB) && HoldA(cfg, a, fromA) <= Free(l, a.assets.assetIn, User(a.who)) {
      var l1 := Reserve(l, a.assets.assetIn, User(a.who), HoldA(cfg, a, fromA)).value;
      ReservePoolsAlone(l, a.assets.assetIn, a.who, HoldA(cfg, a, fromA));
      if HoldA(cfg, b, fromB) <= Free(l1, a.assets.assetOut, User(b.who)) {
        ReservePoolsAlone(l1, a.assets.assetOut, b.who, HoldA(cfg, b, fromB));
      }
    }
  }

  // A trade with the market maker.

  lemma TradedKept(cfg: Xyk.Config, l: Ledger, l': Ledger, origin: nat, assets: AssetPair, sent: nat, received: nat,
                   charge: nat)
    requires assets.assetIn != assets.assetOut && Traded(cfg, l, l', origin, assets, sent, received, charge)
    requires KeptPool(l, l', Xyk.PairId(assets))
    ensures Kept(cfg, l, l', charge)
  {
    hide Supply, Free;
  }

  /** A trade validated on `s` and executed on a ledger with the same pools. */
  lemma AmmKept(cfg: Xyk.Config, s: Xyk.State, l: Ledger, i: Intention, t: Xyk.AmmTransfer, l': Ledger)
    requires Inv(cfg, s) && PoolsAlone(s.ledger, l)
    requires Validated(cfg, s, i) == Ok(t) && AmmExecuted(cfg, l, i.isSell, t) == Ok(l')
    ensures Kept(cfg, l, l', Charge(t)) && l'.reserved == l.reserved
  {
    hide Inv, Supply, Free, Xyk.ValidateSell, Xyk.ValidateBuy, Xyk.ExecuteSell, Xyk.ExecuteBuy, Product;
    if i.isSell {
      SellValidated(cfg, s, i.who, i.assets, i.amountIn, i.tradeLimit, i.discount, t);
      DistinctAssets(cfg, s, i.assets);
      SellEffect(cfg, l, t, l');
      ValidSellKeepsProduct(cfg, s, i.who, i.assets, i.amountIn, i.tradeLimit, i.discount, t, l, l');
      TradedKept(cfg, l, l', i.who, i.assets, t.amount, t.amountOut, Charge(t));
    } else {
      BuyValidated(cfg, s, i.who, i.assets, i.amountOut, i.tradeLimit, i.discount, t);
      DistinctAssets(cfg, s, i.assets);
      BuyEffect(cfg, l, t, l');
      ValidBuyKeepsProduct(cfg, s, i.who, i.assets, i.amountOut, i.tradeLimit, i.discount, t, l, l');
      TradedKept(cfg, l, l', i.who, i.assets, t.amountOut + t.fee, t.amount, Charge(t));
    }
  }

  lemma KeptInv(cfg: Xyk.Config, s: Xyk.State, l: Ledger, burnt: int)
    requires Xyk.Lawful(cfg) && Inv(cfg, s) && Kept(cfg, s.ledger, l, burnt)
    ensures Inv(cfg, s.(ledger := l))
  {
    hide Supply, Free, Product;
    forall k | k in s.shareToken
      ensures PoolOk(cfg, s.(ledger := l), k)
    {
      assert PoolOk(cfg, s, k);
      assert KeptPool(s.ledger, l, k);
    }
  }

  // Rounds.

  /** The discounts charged in a log. */
  function Charges(log: seq<Event>): nat
    decreases |log|
  {
    if log == [] then 0
    else Charges(log[..|log| - 1]) + if log[|log| - 1].AmmTrade? then Charge(log[|log| - 1].transfer) else 0
  }

  /** From `w` to `w'` only the ledger changed and events were added, every pool kept its product, and the native asset
      fell exactly by the discounts charged. */
  ghost predicate Settles(cfg: Xyk.Config, w: World, w': World) {
    && w'.amm == w.amm.(ledger := w'.amm.ledger)
    && w.log <= w'.log
    && Kept(cfg, w.amm.ledger, w'.amm.ledger, Charges(w'.log) - Charges(w.log))
    && (Xyk.Lawful(cfg) && Inv(cfg, w.amm) ==> Inv(cfg, w'.amm))
  }

  lemma SettlesTransitive(cfg: Xyk.Config, w: World, w1: World, w2: World)
    requires Settles(cfg, w, w1) && Settles(cfg, w1, w2)
    ensures Settles(cfg, w, w2)
  {
    hide Kept, Inv, Charges, Xyk.Lawful;
    KeptTransitive(cfg, w.amm.ledger, w1.amm.ledger, w2.amm.ledger, Charges(w1.log) - Charges(w.log),
                   Charges(w2.log) - Charges(w1.log));
  }

  lemma SettlesSame(cfg: Xyk.Config, w: World)
    ensures Settles(cfg, w, w)
  {
    hide Inv, Xyk.Lawful;
    GrownKept(cfg, w.amm.ledger, w.amm.ledger);
  }

  /** A new ledger and new events settle if the ledger kept what the events charge. */
  lemma SettlesBy(cfg: Xyk.Config, w: World, l: Ledger, events: seq<Event>)
    requires Kept(cfg, w.amm.ledger, l, Charges(w.log + events) - Charges(w.log))
    ensures Settles(cfg, w, OnLedger(w, l).(log := w.log + events))
  {
    hide Kept, Inv, Charges, Xyk.Lawful;
    if Xyk.Lawful(cfg) && Inv(cfg, w.amm) {
      KeptInv(cfg, w.amm, l, Charges(w.log + events) - Charges(w.log));
    }
  }

  lemma ChargesOne(log: seq<Event>, e: Event)
    ensures Charges(log + [e]) == Charges(log) + if e.AmmTrade? then Charge(e.transfer) else 0
  {
    assert (log + [e])[..|log|] == log;
  }

  lemma ChargesNone(log: seq<Event>)
    ensures Charges(log + []) == Charges(log)
  {
    assert log + [] == log;
  }

  lemma SingleSettles(cfg: Xyk.Config, w: World, i: Intention)
    requires Inv(cfg, w.amm)
    ensures Settles(cfg, w, ResolvedSingle(cfg, w, i))
  {
    hide Inv, Kept, Validated, AmmExecuted, Charges, Settles;
    SettlesSame(cfg, w);
    var v := Validated(cfg, w.amm, i);
    if v.Ok? && AmmExecuted(cfg, w.amm.ledger, i.isSell, v.value).Ok? {
      var t, l := v.value, AmmExecuted(cfg, w.amm.ledger, i.isSell, v.value).value;
      AmmKept(cfg, w.amm, w.amm.ledger, i, t, l);
      ChargesOne(w.log, AmmTrade(i.id, i.isSell, t));
      SettlesBy(cfg, w, l, [AmmTrade(i.id, i.isSell, t)]);
    }
  }

  lemma PreparedKept(cfg: Xyk.Config, l: Ledger, a: Intention, b: Intention, pool: AccountId, fromA: nat, fromB: nat)
    ensures Kept(cfg, l, Prepared(cfg, l, a, b, pool, fromA, fromB).0, 0)
  {
    hide Prepared, Kept, Supply, Free;
    PreparedPoolsAlone(cfg, l, a, b, pool, fromA, fromB);
    GrownKept(cfg, l, Prepared(cfg, l, a, b, pool, fromA, fromB).0);
  }

  lemma SettledSettles(cfg: Xyk.Config, w: World, pool: AccountId, a: Intention, b: Intention, fromA: nat, fromB: nat)
    ensures Settles(cfg, w, Settled(cfg, w, pool, a, b, fromA, fromB).0)
  {
    hide Prepared, Executed, Kept, Charges, Settles;
    var (l, legs) := Prepared(cfg, w.amm.ledger, a, b, pool, fromA, fromB);
    PreparedKept(cfg, w.amm.ledger, a, b, pool, fromA, fromB);
    match legs
    case None =>
      ChargesNone(w.log);
      SettlesBy(cfg, w, l, []);
      assert w.log + [] == w.log;
    case Some(legs) =>
      ExecutedGrown(l, legs);
      GrownKept(cfg, l, Executed(l, legs));
      KeptTransitive(cfg, w.amm.ledger, l, Executed(l, legs), 0, 0);
      ChargesOne(w.log, DirectTrade(a.id, b.id, fromA, fromB));
      SettlesBy(cfg, w, Executed(l, legs), [DirectTrade(a.id, b.id, fromA, fromB)]);
  }

  lemma PartlySettles(cfg: Xyk.Config, w: World, pool: AccountId, a: Intention, b: Intention, rest: Intention,
                      t: Xyk.AmmTransfer)
    requires Inv(cfg, w.amm) && Validated(cfg, w.amm, rest) == Ok(t) && rest.isSell == b.isSell
    ensures Settles(cfg, w, PartlySettled(cfg, w, pool, a, b, t).0)
  {
    hide Prepared, Executed, Reverted, Kept, Charges, Settles, Validated, AmmExecuted, Inv, PoolsAlone, Grown;
    var (l, legs) := Prepared(cfg, w.amm.ledger, a, b, pool, a.amountIn, a.amountOut);
    PreparedKept(cfg, w.amm.ledger, a, b, pool, a.amountIn, a.amountOut);
    PreparedPoolsAlone(cfg, w.amm.ledger, a, b, pool, a.amountIn, a.amountOut);
    assert w.log + [] == w.log;
    match legs
    case None =>
      ChargesNone(w.log);
      SettlesBy(cfg, w, l, []);
    case Some(legs) =>
      match AmmExecuted(cfg, l, b.isSell, t)
      case Err(_) =>
        RevertedGrown(l, legs);
        GrownKept(cfg, l, Reverted(l, legs));
        KeptTransitive(cfg, w.amm.ledger, l, Reverted(l, legs), 0, 0);
        ChargesNone(w.log);
        SettlesBy(cfg, w, Reverted(l, legs), []);
      case Ok(l') =>
        var amm, direct := AmmTrade(b.id, b.isSell, t), DirectTrade(a.id, b.id, a.amountIn, a.amountOut);
        AmmKept(cfg, w.amm, l, rest, t, l');
        KeptTransitive(cfg, w.amm.ledger, l, l', 0, Charge(t));
        ExecutedGrown(l', legs);
        GrownKept(cfg, l', Executed(l', legs));
        KeptTransitive(cfg, w.amm.ledger, l', Executed(l', legs), Charge(t), 0);
        ChargesOne(w.log, amm);
        ChargesOne(w.log + [amm], direct);
        assert w.log + [amm] + [direct] == w.log + [amm, direct];
        SettlesBy(cfg, w, Executed(l', legs), [amm, direct]);
  }

  lemma MatchedSettles(cfg: Xyk.Config, w: World, pool: AccountId, main: Intention, a: Intention, b: Intention,
                       w': World, a': Intention)
    requires Inv(cfg, w.amm) && Matched(cfg, w, pool, main, a, b) == Some((w', a'))
    ensures Settles(cfg, w, w')
  {
    hide Settled, PartlySettled, Settles, Validated, Inv;
    SettlesSame(cfg, w);
    if a.amountIn > b.amountOut {
      SettledSettles(cfg, w, pool, a, b, b.amountOut, b.amountIn);
    } else if a.amountIn < b.amountOut {
      var v := Validated(cfg, w.amm, RestOf(b, a));
      if v.Ok? {
        PartlySettles(cfg, w, pool, a, b, RestOf(b, a), v.value);
      }
    } else {
      SettledSettles(cfg, w, pool, a, b, a.amountIn, b.amountIn);
    }
  }

  lemma {:induction false} MatchedAllSettles(cfg: Xyk.Config, w: World, pool: AccountId, main: Intention,
                                             group: seq<Intention>, w': World, a: Intention)
    requires Xyk.Lawful(cfg) && Inv(cfg, w.amm) && MatchedAll(cfg, w, pool, main, group) == Some((w', a))
    ensures Settles(cfg, w, w')
    decreases |group|
  {
    hide Matched, Inv, Xyk.Lawful, Kept;
    if group == [] {
      SettlesSame(cfg, w);
    } else {
      var (w1, a1) := MatchedAll(cfg, w, pool, main, group[..|group| - 1]).value;
      MatchedAllSettles(cfg, w, pool, main, group[..|group| - 1], w1, a1);
      MatchedSettles(cfg, w1, pool, main, a1, group[|group| - 1], w', a);
      SettlesTransitive(cfg, w, w1, w');
    }
  }

  lemma {:induction false} EachSettles(cfg: Xyk.Config, w: World, rest: seq<Intention>)
    requires Xyk.Lawful(cfg) && Inv(cfg, w.amm)
    ensures Settles(cfg, w, ResolvedEach(cfg, w, rest))
    decreases |rest|
  {
    hide ResolvedSingle, Inv, Xyk.Lawful, Kept;
    if rest == [] {
      SettlesSame(cfg, w);
    } else {
      var w1 := ResolvedEach(cfg, w, rest[..|rest| - 1]);
      EachSettles(cfg, w, rest[..|rest| - 1]);
      SingleSettles(cfg, w1, rest[|rest| - 1]);
      SettlesTransitive(cfg, w, w1, ResolvedEach(cfg, w, rest));
    }
  }

  lemma ResolvedMatchedSettles(cfg: Xyk.Config, w: World, pool: AccountId, main: Intention, group: seq<Intention>,
                               w': World)
    requires Xyk.Lawful(cfg) && Inv(cfg, w.amm) && ResolvedMatched(cfg, w, pool, main, group) == Some(w')
    ensures Settles(cfg, w, w')
  {
    hide MatchedAll, ResolvedSingle, Inv, Xyk.Lawful, Kept;
    var (w1, a) := MatchedAll(cfg, w, pool, main, group).value;
    MatchedAllSettles(cfg, w, pool, main, group, w1, a);
    if a.amountIn > 0 {
      SingleSettles(cfg, w1, a);
      SettlesTransitive(cfg, w, w1, w');
    }
  }

  /** Processing a pair, whatever its intentions and in whatever order. */
  lemma {:induction false} ProcessedFromSettles(cfg: Xyk.Config, w: World, pool: AccountId, mains: seq<Intention>,
                                                bs: seq<Intention>, w': World)
    requires Xyk.Lawful(cfg) && Inv(cfg, w.amm) && ProcessedFrom(cfg, w, pool, mains, bs) == Some(w')
    ensures Settles(cfg, w, w')
    decreases |mains|
  {
    hide ResolvedMatched, ResolvedEach, Inv, Xyk.Lawful, Kept, GroupLen, Validated;
    if mains == [] {
      EachSettles(cfg, w, bs);
    } else if Validated(cfg, w.amm, mains[0]).Err? {
      ProcessedFromSettles(cfg, w, pool, mains[1..], bs, w');
    } else {
      var n := GroupLen(bs, mains[0].amountIn);
      var w1 := ResolvedMatched(cfg, w, pool, mains[0], bs[..n]).value;
      ResolvedMatchedSettles(cfg, w, pool, mains[0], bs[..n], w1);
      ProcessedFromSettles(cfg, w1, pool, mains[1..], bs[n..], w');
      SettlesTransitive(cfg, w, w1, w');
    }
  }
}
