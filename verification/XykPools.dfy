/** The stores of the market maker agree with each other and with the ledger, and every call keeps them so. */
module XykPools {
  import opened Basics
  import opened Sums
  import opened Rounding
  import opened Ledgers
  import opened Xyk
  import opened XykTrades

  /** What the storage says of the pool `k` is true of the ledger. */
  ghost predicate PoolOk(cfg: Config, s: State, k: AccountId)
    requires k in s.shareToken && k in s.poolAssets && k in s.totalLiquidity
  {
    && k.XykPair? && k.lo < k.hi
    && s.shareToken[k] == cfg.shareTokenOf(k)
    && (s.poolAssets[k] == (k.lo, k.hi) || s.poolAssets[k] == (k.hi, k.lo))
    && 0 < s.totalLiquidity[k] == Supply(s.ledger, cfg.shareTokenOf(k))
    && 0 < Free(s.ledger, k.lo, k) && 0 < Free(s.ledger, k.hi, k)
  }

  ghost predicate Inv(cfg: Config, s: State) {
    && s.shareToken.Keys == s.poolAssets.Keys == s.totalLiquidity.Keys
    && (forall k :: k in s.shareToken ==> PoolOk(cfg, s, k))
    && (forall k: AccountId :: k.XykPair? && k !in s.shareToken ==> Supply(s.ledger, cfg.shareTokenOf(k)) == 0)
  }

  /** Only the pool `k` and the accounts outside pools differ between `s` and `s'`. */
  ghost predicate OnlyPool(cfg: Config, s: State, s': State, k: AccountId) {
    && s'.shareToken.Keys == s'.poolAssets.Keys == s'.totalLiquidity.Keys
    && (forall j :: j != k ==> (j in s'.shareToken <==> j in s.shareToken))
    && (forall j :: j != k && j in s.shareToken && j in s'.shareToken ==>
          && s'.shareToken[j] == s.shareToken[j]
          && (j in s.poolAssets && j in s'.poolAssets ==> s'.poolAssets[j] == s.poolAssets[j])
          && (j in s.totalLiquidity && j in s'.totalLiquidity ==> s'.totalLiquidity[j] == s.totalLiquidity[j]))
    && (forall j: AccountId, a :: j != k && j.XykPair? ==> Free(s'.ledger, a, j) == Free(s.ledger, a, j))
    && (forall j: AccountId :: j != k && j.XykPair? ==>
          Supply(s'.ledger, cfg.shareTokenOf(j)) == Supply(s.ledger, cfg.shareTokenOf(j)))
  }

  lemma PoolStep(cfg: Config, s: State, s': State, k: AccountId)
    requires Inv(cfg, s) && k.XykPair? && OnlyPool(cfg, s, s', k)
    requires k in s'.shareToken ==> PoolOk(cfg, s', k)
    requires k !in s'.shareToken ==> Supply(s'.ledger, cfg.shareTokenOf(k)) == 0
    ensures Inv(cfg, s')
  {
    hide Supply, Free;
    forall j | j in s'.shareToken
      ensures PoolOk(cfg, s', j)
    {
      if j != k {
        assert PoolOk(cfg, s, j);
      }
    }
  }

  /** No pool of an asset against itself. */
  lemma DistinctAssets(cfg: Config, s: State, pair: AssetPair)
    requires Inv(cfg, s) && Exists(s, pair)
    ensures pair.assetIn != pair.assetOut && PoolOk(cfg, s, PairId(pair))
    ensures Free(s.ledger, pair.assetIn, PairId(pair)) > 0 && Free(s.ledger, pair.assetOut, PairId(pair)) > 0
  {
    hide Supply, Free;
    assert PoolOk(cfg, s, PairId(pair));
  }

  // Creating a pool.

  /** Two payments between `who` and the account `k`, one in each of two assets, and a change of `minted`
      in the issuance of `token`, at `who`. */
  ghost predicate Moved(l: Ledger, l': Ledger, who: nat, k: AccountId, a: AssetId, b: AssetId, inA: int, inB: int,
                        token: AssetId, minted: int)
  {
    && Free(l', a, k) == Free(l, a, k) + inA
    && Free(l', b, k) == Free(l, b, k) + inB
    && (forall x, w :: w != User(who) && w != k ==> Free(l', x, w) == Free(l, x, w))
    && (forall x :: x != a && x != b ==> Free(l', x, k) == Free(l, x, k))
    && (forall x :: Supply(l', x) == Supply(l, x) + if x == token then minted else 0)
    && (forall x :: Free(l', x, User(who)) ==
          Free(l, x, User(who)) - (if x == a then inA else 0) - (if x == b then inB else 0) +
          if x == token then minted else 0)
  }

  lemma PaidIn(l: Ledger, l1: Ledger, l2: Ledger, who: nat, k: AccountId, a: AssetId, b: AssetId, amountA: nat,
               amountB: nat, token: AssetId, shares: nat)
    requires a != b && k.XykPair?
    requires Pay(l, a, User(who), k, amountA) == Ok(l1) && Pay(l1, b, User(who), k, amountB) == Ok(l2)
    ensures Moved(l, Deposit(l2, token, User(who), shares), who, k, a, b, amountA, amountB, token, shares)
  {
    hide Pay, Supply;
    PayEffect(l, a, User(who), k, amountA, l1);
    PayEffect(l1, b, User(who), k, amountB, l2);
    forall x
      ensures Supply(Deposit(l2, token, User(who), shares), x) == Supply(l, x) + if x == token then shares else 0
    {
      DepositMints(l2, token, User(who), shares, x);
    }
    DepositEffect(l2, token, User(who), shares);
    hide Free, Deposit;
  }

  lemma DepositEffect(l: Ledger, token: AssetId, who: AccountId, shares: nat)
    ensures forall x, w :: Free(Deposit(l, token, who, shares), x, w) ==
              Free(l, x, w) + if x == token && w == who then shares else 0
  {
  }

  lemma WithdrawEffect(l: Ledger, token: AssetId, who: AccountId, shares: nat)
    requires Withdraw(l, token, who, shares).Some?
    ensures forall x, w :: Free(Withdraw(l, token, who, shares).value, x, w) ==
              Free(l, x, w) - if x == token && w == who then shares else 0
  {
  }

  lemma PaidOut(l: Ledger, l1: Ledger, l2: Ledger, l3: Ledger, who: nat, k: AccountId, a: AssetId, b: AssetId,
                outA: nat, outB: nat, token: AssetId, shares: nat)
    requires a != b && k.XykPair?
    requires Pay(l, a, k, User(who), outA) == Ok(l1) && Pay(l1, b, k, User(who), outB) == Ok(l2)
    requires Burn(l2, token, User(who), shares) == Ok(l3)
    ensures Moved(l, l3, who, k, a, b, 0 - outA, 0 - outB, token, 0 - shares)
  {
    hide Pay, Supply;
    PayEffect(l, a, k, User(who), outA, l1);
    PayEffect(l1, b, k, User(who), outB, l2);
    forall x
      ensures Supply(l3, x) == Supply(l, x) - if x == token then shares else 0
    {
      WithdrawBurns(l2, token, User(who), shares, x);
    }
    WithdrawEffect(l2, token, User(who), shares);
    hide Free, Withdraw;
  }

  /** A call that moves assets between one user and one pool and issues or burns the pool's own shares. */
  lemma MoveTouchesOnlyPool(cfg: Config, s: State, s': State, who: nat, k: AccountId, a: AssetId, b: AssetId, inA: int,
                            inB: int, minted: int)
    requires Lawful(cfg) && k.XykPair?
    requires Moved(s.ledger, s'.ledger, who, k, a, b, inA, inB, cfg.shareTokenOf(k), minted)
    requires s.shareToken.Keys == s.poolAssets.Keys == s.totalLiquidity.Keys
    requires s'.shareToken.Keys == s'.poolAssets.Keys == s'.totalLiquidity.Keys
    requires s'.shareToken - {k} == s.shareToken - {k}
    requires s'.poolAssets - {k} == s.poolAssets - {k}
    requires s'.totalLiquidity - {k} == s.totalLiquidity - {k}
    ensures OnlyPool(cfg, s, s', k)
  {
    hide Supply, Free;
    forall j | j != k
      ensures j in s'.shareToken <==> j in s.shareToken
      ensures j in s.shareToken && j in s'.shareToken ==> s'.shareToken[j] == s.shareToken[j]
      ensures j in s.poolAssets && j in s'.poolAssets ==> s'.poolAssets[j] == s.poolAssets[j]
      ensures j in s.totalLiquidity && j in s'.totalLiquidity ==> s'.totalLiquidity[j] == s.totalLiquidity[j]
    {
      SameOutside(s.shareToken, s'.shareToken, k, j);
      SameOutside(s.poolAssets, s'.poolAssets, k, j);
      SameOutside(s.totalLiquidity, s'.totalLiquidity, k, j);
    }
  }

  lemma SameOutside<K, V>(m: map<K, V>, m': map<K, V>, k: K, j: K)
    requires m' - {k} == m - {k} && j != k
    ensures j in m' <==> j in m
    ensures j in m && j in m' ==> m'[j] == m[j]
  {
    assert j in m' - {k} <==> j in m';
    assert j in m - {k} <==> j in m;
    if j in m {
      assert (m - {k})[j] == m[j] && (m' - {k})[j] == m'[j];
    }
  }

  /** A pool of `a` and `b` was created. */
  ghost predicate Founded(cfg: Config, s: State, s': State, who: nat, a: AssetId, b: AssetId, inA: nat, inB: nat,
                          shares: nat)
  {
    var k := PairId(AssetPair(a, b));
    && a != b && k !in s.shareToken && 0 < inA && 0 < inB && 0 < shares
    && s' == State(s.shareToken[k := cfg.shareTokenOf(k)], s.poolAssets[k := (a, b)],
                   s.totalLiquidity[k := shares], s'.ledger)
    && Moved(s.ledger, s'.ledger, who, k, a, b, inA, inB, cfg.shareTokenOf(k), shares)
  }

  lemma CreatePoolEffect(cfg: Config, s: State, who: nat, a: AssetId, b: AssetId, amount: nat, price: nat,
                         permitted: bool, s': State) returns (amountB: nat)
    requires cfg.minLiquidity > 0 && CreatePool(cfg, s, who, a, b, amount, price, permitted) == Ok(s')
    ensures amountB == FixedMul(price, amount)
    ensures Founded(cfg, s, s', who, a, b, amount, amountB, if a < b then amount else amountB)
  {
    hide Supply, Free, Pay, FixedMul, Deposit, Moved;
    var k := PairId(AssetPair(a, b));
    amountB := FixedMul(price, amount);
    var shares := if a < b then amount else amountB;
    var l1 := Pay(s.ledger, a, User(who), k, amount).value;
    var l2 := Pay(l1, b, User(who), k, amountB).value;
    PaidIn(s.ledger, l1, l2, who, k, a, b, amount, amountB, cfg.shareTokenOf(k), shares);
  }

  lemma CreatePoolKeeps(cfg: Config, s: State, who: nat, a: AssetId, b: AssetId, amount: nat, price: nat,
                        permitted: bool, s': State) returns (amountB: nat)
    requires Lawful(cfg) && Inv(cfg, s) && CreatePool(cfg, s, who, a, b, amount, price, permitted) == Ok(s')
    ensures Inv(cfg, s')
    ensures amountB == FixedMul(price, amount)
    ensures Founded(cfg, s, s', who, a, b, amount, amountB, if a < b then amount else amountB)
  {
    hide Supply, Free, CreatePool, FixedMul;
    var k := PairId(AssetPair(a, b));
    amountB := CreatePoolEffect(cfg, s, who, a, b, amount, price, permitted, s');
    var shares := if a < b then amount else amountB;
    MoveTouchesOnlyPool(cfg, s, s', who, k, a, b, amount, amountB, shares);
    PoolStep(cfg, s, s', k);
  }

  /** Liquidity joined the pool of `a` and `b`. */
  ghost predicate Joined(cfg: Config, s: State, s': State, who: nat, a: AssetId, b: AssetId, inA: nat, inB: nat,
                         shares: nat)
  {
    var k := PairId(AssetPair(a, b));
    && s' == s.(totalLiquidity := s.totalLiquidity[k := TotalAt(s, k) + shares], ledger := s'.ledger)
    && Moved(s.ledger, s'.ledger, who, k, a, b, inA, inB, cfg.shareTokenOf(k), shares)
  }

  lemma AddLiquidityEffect(cfg: Config, s: State, who: nat, a: AssetId, b: AssetId, amountA: nat, maxB: nat, s': State)
    returns (amountB: nat)
    requires a != b && TokenAt(s, PairId(AssetPair(a, b))) == cfg.shareTokenOf(PairId(AssetPair(a, b)))
    requires AddLiquidity(cfg, s, who, a, b, amountA, maxB) == Ok(s')
    ensures amountB <= maxB && Joined(cfg, s, s', who, a, b, amountA, amountB, if a < b then amountA else amountB)
    ensures var k := PairId(AssetPair(a, b));
            LiquidityIn(Free(s.ledger, a, k), Free(s.ledger, b, k), amountA) == Some(amountB)
  {
    hide Supply, Free, Pay, LiquidityIn, Deposit, Moved;
    var k := PairId(AssetPair(a, b));
    amountB := LiquidityIn(Free(s.ledger, a, k), Free(s.ledger, b, k), amountA).value;
    var shares := if a < b then amountA else amountB;
    var l1 := Pay(s.ledger, a, User(who), k, amountA).value;
    var l2 := Pay(l1, b, User(who), k, amountB).value;
    PaidIn(s.ledger, l1, l2, who, k, a, b, amountA, amountB, cfg.shareTokenOf(k), shares);
  }

  lemma AddLiquidityKeeps(cfg: Config, s: State, who: nat, a: AssetId, b: AssetId, amountA: nat, maxB: nat, s': State)
    returns (amountB: nat)
    requires Lawful(cfg) && Inv(cfg, s) && AddLiquidity(cfg, s, who, a, b, amountA, maxB) == Ok(s')
    ensures Inv(cfg, s')
    ensures amountB <= maxB && Joined(cfg, s, s', who, a, b, amountA, amountB, if a < b then amountA else amountB)
    ensures var k := PairId(AssetPair(a, b));
            LiquidityIn(Free(s.ledger, a, k), Free(s.ledger, b, k), amountA) == Some(amountB)
  {
    hide Supply, Free, Pay, LiquidityIn, Deposit, CheckedAdd;
    var pair := AssetPair(a, b);
    var k := PairId(pair);
    DistinctAssets(cfg, s, pair);
    amountB := AddLiquidityEffect(cfg, s, who, a, b, amountA, maxB, s');
    hide AddLiquidity;
    var shares := if a < b then amountA else amountB;
    MoveTouchesOnlyPool(cfg, s, s', who, k, a, b, amountA, amountB, shares);
    PoolStep(cfg, s, s', k);
  }

  // Removing liquidity.

  /** A share of a positive reserve is all of it for all the shares, and less for fewer. */
  lemma ShareOfReserve(reserve: nat, shares: nat, total: nat, out: nat)
    requires shares <= total && LiquidityOut(reserve, shares, total) == Some(out)
    ensures out <= reserve
    ensures shares == total ==> out == reserve
    ensures shares < total && reserve > 0 ==> out < reserve
    ensures reserve * (total - shares) <= (reserve - out) * total
  {
    FloorBounds(shares * reserve, total);
    Distribute(reserve, total - shares, shares);
    Distribute(total, reserve - out, out);
    assert reserve * total == total * reserve;
    if shares == total {
      DivAtLeast(total * reserve, total, reserve);
      DivBelow(total * reserve, total, reserve + 1);
    }
    MulMonotone(shares, total, reserve);
    if out > reserve {
      MulMonotone(reserve + 1, out, total);
      Distribute(total, reserve, 1);
    }
    if shares < total && reserve > 0 && out >= reserve {
      MulMonotone(reserve, out, total);
      MulMonotone(shares + 1, total, reserve);
      Distribute(reserve, shares, 1);
    }
  }

  /** Shares left the pool of `a` and `b` against `outA` and `outB`; with the last of them the pool is gone. */
  ghost predicate Redeemed(cfg: Config, s: State, s': State, who: nat, a: AssetId, b: AssetId, amount: nat, outA: nat,
                           outB: nat)
  {
    var k := PairId(AssetPair(a, b));
    && 0 < amount <= TotalAt(s, k)
    && LiquidityOut(Free(s.ledger, a, k), amount, TotalAt(s, k)) == Some(outA)
    && LiquidityOut(Free(s.ledger, b, k), amount, TotalAt(s, k)) == Some(outB)
    && Moved(s.ledger, s'.ledger, who, k, a, b, 0 - outA, 0 - outB, cfg.shareTokenOf(k), 0 - amount)
    && s' == if amount == TotalAt(s, k) then
               State(s.shareToken - {k}, s.poolAssets - {k}, s.totalLiquidity - {k}, s'.ledger)
             else
               s.(totalLiquidity := s.totalLiquidity[k := TotalAt(s, k) - amount], ledger := s'.ledger)
  }

  lemma RemoveLiquidityEffect(cfg: Config, s: State, who: nat, a: AssetId, b: AssetId, amount: nat, s': State)
    returns (outA: nat, outB: nat)
    requires a != b && TokenAt(s, PairId(AssetPair(a, b))) == cfg.shareTokenOf(PairId(AssetPair(a, b)))
    requires RemoveLiquidity(cfg, s, who, a, b, amount) == Ok(s')
    ensures Redeemed(cfg, s, s', who, a, b, amount, outA, outB)
  {
    hide Supply, Free, Pay, LiquidityOut, Burn, Moved;
    var k := PairId(AssetPair(a, b));
    outA := LiquidityOut(Free(s.ledger, a, k), amount, TotalAt(s, k)).value;
    outB := LiquidityOut(Free(s.ledger, b, k), amount, TotalAt(s, k)).value;
    var l1 := Pay(s.ledger, a, k, User(who), outA).value;
    var l2 := Pay(l1, b, k, User(who), outB).value;
    PaidOut(s.ledger, l1, l2, s'.ledger, who, k, a, b, outA, outB, cfg.shareTokenOf(k), amount);
  }

  lemma RedeemedKeeps(cfg: Config, s: State, s': State, who: nat, a: AssetId, b: AssetId, amount: nat, outA: nat,
                      outB: nat)
    requires Lawful(cfg) && Inv(cfg, s) && Exists(s, AssetPair(a, b))
    requires Redeemed(cfg, s, s', who, a, b, amount, outA, outB)
    ensures Inv(cfg, s')
    ensures amount == TotalAt(s, PairId(AssetPair(a, b))) ==>
              Free(s'.ledger, a, PairId(AssetPair(a, b))) == 0 && Free(s'.ledger, b, PairId(AssetPair(a, b))) == 0
  {
    hide Supply, Free, LiquidityOut;
    var k := PairId(AssetPair(a, b));
    DistinctAssets(cfg, s, AssetPair(a, b));
    ShareOfReserve(Free(s.ledger, a, k), amount, TotalAt(s, k), outA);
    ShareOfReserve(Free(s.ledger, b, k), amount, TotalAt(s, k), outB);
    MoveTouchesOnlyPool(cfg, s, s', who, k, a, b, 0 - outA, 0 - outB, 0 - amount);
    PoolStep(cfg, s, s', k);
  }

  /** Removing liquidity pays each reserve in proportion, rounded down, and burns what it says; burning the last
      shares pays out both reserves entirely. */
  lemma RemoveLiquidityKeeps(cfg: Config, s: State, who: nat, a: AssetId, b: AssetId, amount: nat, s': State)
    returns (outA: nat, outB: nat)
    requires Lawful(cfg) && Inv(cfg, s) && RemoveLiquidity(cfg, s, who, a, b, amount) == Ok(s')
    ensures Inv(cfg, s') && Redeemed(cfg, s, s', who, a, b, amount, outA, outB)
    ensures amount == TotalAt(s, PairId(AssetPair(a, b))) ==>
              Free(s'.ledger, a, PairId(AssetPair(a, b))) == 0 && Free(s'.ledger, b, PairId(AssetPair(a, b))) == 0
  {
    hide Supply, Free, Redeemed;
    var k := PairId(AssetPair(a, b));
    assert Exists(s, AssetPair(a, b));
    DistinctAssets(cfg, s, AssetPair(a, b));
    hide RemoveLiquidity;
    outA, outB := RemoveLiquidityEffect(cfg, s, who, a, b, amount, s');
    RedeemedKeeps(cfg, s, s', who, a, b, amount, outA, outB);
  }

  // Trades.

  lemma TradeKeeps(cfg: Config, s: State, origin: nat, assets: AssetPair, sent: nat, received: nat, charge: nat,
                   s': State)
    requires Lawful(cfg) && Inv(cfg, s) && Exists(s, assets) && s' == s.(ledger := s'.ledger)
    requires Traded(cfg, s.ledger, s'.ledger, origin, assets, sent, received, charge)
    requires Free(s'.ledger, assets.assetIn, PairId(assets)) > 0 && Free(s'.ledger, assets.assetOut, PairId(assets)) > 0
    ensures Inv(cfg, s')
  {
    hide Supply, Free;
    DistinctAssets(cfg, s, assets);
    PoolStep(cfg, s, s', PairId(assets));
  }

  lemma SellKeeps(cfg: Config, s: State, who: nat, assets: AssetPair, amount: nat, minBought: nat, discount: bool,
                  s': State)
    requires Lawful(cfg) && Inv(cfg, s) && Sell(cfg, s, who, assets, amount, minBought, discount) == Ok(s')
    ensures Inv(cfg, s') && Exists(s, assets)
    ensures Product(s.ledger, PairId(assets)) <= Product(s'.ledger, PairId(assets))
    ensures exists received: nat, charge: nat ::
              received >= minBought && Traded(cfg, s.ledger, s'.ledger, who, assets, amount, received, charge)
  {
    hide Supply, Free, ValidateSell, ExecuteSell, Traded, Product;
    var t := ValidateSell(cfg, s, who, assets, amount, minBought, discount).value;
    SellValidated(cfg, s, who, assets, amount, minBought, discount, t);
    DistinctAssets(cfg, s, assets);
    SellEffect(cfg, s.ledger, t, s'.ledger);
    ValidSellKeepsProduct(cfg, s, who, assets, amount, minBought, discount, t, s.ledger, s'.ledger);
    TradeKeeps(cfg, s, who, assets, t.amount, t.amountOut, Charge(t), s');
  }

  lemma BuyKeeps(cfg: Config, s: State, who: nat, assets: AssetPair, amount: nat, maxSold: nat, discount: bool,
                 s': State)
    requires Lawful(cfg) && Inv(cfg, s) && Buy(cfg, s, who, assets, amount, maxSold, discount) == Ok(s')
    ensures Inv(cfg, s') && Exists(s, assets)
    ensures Product(s.ledger, PairId(assets)) <= Product(s'.ledger, PairId(assets))
    ensures exists sent: nat, charge: nat ::
              sent <= maxSold && Traded(cfg, s.ledger, s'.ledger, who, assets, sent, amount, charge)
  {
    hide Supply, Free, ValidateBuy, ExecuteBuy, Traded, Product;
    var t := ValidateBuy(cfg, s, who, assets, amount, maxSold, discount).value;
    BuyValidated(cfg, s, who, assets, amount, maxSold, discount, t);
    DistinctAssets(cfg, s, assets);
    BuyEffect(cfg, s.ledger, t, s'.ledger);
    ValidBuyKeepsProduct(cfg, s, who, assets, amount, maxSold, discount, t, s.ledger, s'.ledger);
    TradeKeeps(cfg, s, who, assets, t.amountOut + t.fee, t.amount, Charge(t), s');
  }

  // Storage with a single pool, of the assets 0 and 1 and with share token 2, for examples.

  function OnePool(l: Ledger, total: nat): State {
    State(map[XykPair(0, 1) := 2], map[XykPair(0, 1) := (0, 1)], map[XykPair(0, 1) := total], l)
  }

  /** A registry that gives every other pair a later token. */
  ghost predicate Registers(cfg: Config) {
    && Lawful(cfg) && cfg.shareTokenOf(XykPair(0, 1)) == 2
    && (forall k: AccountId :: k.XykPair? && k != XykPair(0, 1) ==> cfg.shareTokenOf(k) > 2)
  }

  lemma OnePoolInv(cfg: Config, l: Ledger, holder: AccountId, total: nat)
    requires Registers(cfg) && total > 0
    requires l.reserved == map[] && l.free.Keys == {0, 1, 2} && l.free[2] == map[holder := total]
    requires Free(l, 0, XykPair(0, 1)) > 0 && Free(l, 1, XykPair(0, 1)) > 0
    ensures Inv(cfg, OnePool(l, total))
  {
    SetBook(map[], holder, total);
    assert map[][holder := total] == map[holder := total];
    assert Supply(l, 2) == total;
    hide Sum, Free;
  }

  /** A validated buy that does not execute, on consistent stores: the buyer of 10 000 for the native asset 0 holds
      exactly price and fee, and the discount of 7 comes on top. */
  function ShortLedger(): Ledger {
    Ledger(map[0 := map[XykPair(0, 1) := 100_000, User(7) := 11_119],
               1 := map[XykPair(0, 1) := 100_000],
               2 := map[User(9) := 100_000]],
           map[])
  }

  /** How that buy is validated. */
  lemma ShortBuy(cfg: Config)
    requires cfg.native == 0 && cfg.minTrade == 1_000 && cfg.maxOut == 3
    ensures ValidateBuy(cfg, OnePool(ShortLedger(), 100_000), 7, AssetPair(0, 1), 10_000, 20_000, true) ==
            Ok(AmmTransfer(7, AssetPair(0, 1), 10_000, 11_112, true, 7, 0, 7))
  {
    var l := ShortLedger();
    assert Free(l, 0, XykPair(0, 1)) == Free(l, 1, XykPair(0, 1)) == 100_000 && Free(l, 0, User(7)) == 11_119;
    hide Free, ShortLedger;
    assert 100_000 * 10_000 / 90_000 == 11_111;
    assert InGivenOut(100_000, 100_000, 10_000) == Some(11_112);
    assert TradeFee(11_112, 7, 10_000) == Some(7);
    assert SpotPrice(100_000, 100_000, 7) == Some(7);
  }

  lemma ValidatedBuyCanFail(cfg: Config)
    requires Registers(cfg) && cfg.native == 0 && cfg.minTrade == 1_000 && cfg.maxOut == 3
    ensures Inv(cfg, OnePool(ShortLedger(), 100_000))
    ensures var r := ValidateBuy(cfg, OnePool(ShortLedger(), 100_000), 7, AssetPair(0, 1), 10_000, 20_000, true);
            r.Ok? && ExecuteBuy(cfg, ShortLedger(), r.value).Err?
  {
    var s := OnePool(ShortLedger(), 100_000);
    OnePoolInv(cfg, ShortLedger(), User(9), 100_000);
    ShortBuy(cfg);
    assert Free(ShortLedger(), 0, User(7)) == 11_119;
    hide Inv, Registers, ValidateBuy, ExecuteBuy, Free, ShortLedger;
    ValidatedBuyExecutesIff(cfg, s, 7, AssetPair(0, 1), 10_000, 20_000, true,
                            AmmTransfer(7, AssetPair(0, 1), 10_000, 11_112, true, 7, 0, 7));
  }
}
