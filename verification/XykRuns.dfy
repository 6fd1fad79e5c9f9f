/** Runs of the market maker: store consistency in every reachable state, what trading alone can gain, and what
    splitting a withdrawal can gain. */
module XykRuns {
  import opened Basics
  import opened Sums
  import opened Rounding
  import opened Ledgers
  import opened Xyk
  import opened XykTrades
  import opened XykPools

  datatype Call =
    | Create(who: nat, a: AssetId, b: AssetId, amount: nat, price: nat, permitted: bool)
    | Add(who: nat, a: AssetId, b: AssetId, amountA: nat, maxB: nat)
    | Remove(who: nat, a: AssetId, b: AssetId, shares: nat)
    | SellCall(who: nat, assets: AssetPair, amount: nat, limit: nat, discount: bool)
    | BuyCall(who: nat, assets: AssetPair, amount: nat, limit: nat, discount: bool)
    | Others(ledger: Ledger)   // other pallets

  function Dispatch(cfg: Config, s: State, c: Call): Result<State, Error> {
    match c
    case Create(w, a, b, x, p, ok) => CreatePool(cfg, s, w, a, b, x, p, ok)
    case Add(w, a, b, x, m) => AddLiquidity(cfg, s, w, a, b, x, m)
    case Remove(w, a, b, x) => RemoveLiquidity(cfg, s, w, a, b, x)
    case SellCall(w, p, x, m, d) => Sell(cfg, s, w, p, x, m, d)
    case BuyCall(w, p, x, m, d) => Buy(cfg, s, w, p, x, m, d)
    case Others(l) => Ok(s.(ledger := l))
  }

  /** A failed call changes nothing. */
  function Step(cfg: Config, s: State, c: Call): State {
    match Dispatch(cfg, s, c)
    case Ok(s') => s'
    case Err(_) => s
  }

  /** Other pallets do not spend from pool accounts and do not mint or burn share tokens. */
  ghost predicate Allowed(cfg: Config, s: State, c: Call) {
    c.Others? ==>
      && (forall k: AccountId, a :: k.XykPair? ==> Free(s.ledger, a, k) <= Free(c.ledger, a, k))
      && (forall k: AccountId :: k.XykPair? ==>
            Supply(c.ledger, cfg.shareTokenOf(k)) == Supply(s.ledger, cfg.shareTokenOf(k)))
  }

  function Run(cfg: Config, s: State, calls: seq<Call>): State
    decreases |calls|
  {
    if calls == [] then s else Run(cfg, Step(cfg, s, calls[0]), calls[1..])
  }

  ghost predicate AllowedRun(cfg: Config, s: State, calls: seq<Call>)
    decreases |calls|
  {
    calls != [] ==> Allowed(cfg, s, calls[0]) && AllowedRun(cfg, Step(cfg, s, calls[0]), calls[1..])
  }

  lemma StepKeepsInv(cfg: Config, s: State, c: Call)
    requires Lawful(cfg) && Inv(cfg, s) && Allowed(cfg, s, c)
    ensures Inv(cfg, Step(cfg, s, c))
  {
    hide CreatePool, AddLiquidity, RemoveLiquidity, Sell, Buy, Lawful, Supply, Free, Redeemed, Joined, Founded, Traded,
         Product, Moved;
    var r := Dispatch(cfg, s, c);
    if r.Ok? {
      var s' := r.value;
      match c
      case Create(w, a, b, x, p, ok) => var _ := CreatePoolKeeps(cfg, s, w, a, b, x, p, ok, s');
      case Add(w, a, b, x, m) => var _ := AddLiquidityKeeps(cfg, s, w, a, b, x, m, s');
      case Remove(w, a, b, x) => var _, _ := RemoveLiquidityKeeps(cfg, s, w, a, b, x, s');
      case SellCall(w, p, x, m, d) => SellKeeps(cfg, s, w, p, x, m, d, s');
      case BuyCall(w, p, x, m, d) => BuyKeeps(cfg, s, w, p, x, m, d, s');
      case Others(l) =>
        forall k | k in s'.shareToken
          ensures PoolOk(cfg, s', k)
        {
          assert PoolOk(cfg, s, k);
        }
    }
  }

  lemma {:induction false} RunKeepsInv(cfg: Config, s: State, calls: seq<Call>)
    requires Lawful(cfg) && Inv(cfg, s) && AllowedRun(cfg, s, calls)
    ensures Inv(cfg, Run(cfg, s, calls))
    decreases |calls|
  {
    hide Inv, Step, Lawful, Allowed;
    if calls != [] {
      StepKeepsInv(cfg, s, calls[0]);
      RunKeepsInv(cfg, Step(cfg, s, calls[0]), calls[1..]);
    }
  }

  /** Genesis: no pools and no share tokens yet. */
  ghost predicate Genesis(cfg: Config, s: State) {
    && s.shareToken == map[] && s.poolAssets == map[] && s.totalLiquidity == map[]
    && (forall k: AccountId :: k.XykPair? ==> Supply(s.ledger, cfg.shareTokenOf(k)) == 0)
  }

  /** Store consistency from genesis on: the three stores have the same keys, the issued shares are exactly the
      share token's issuance and positive, and both reserves are positive; a pair without a pool has no shares. */
  lemma ReachableInv(cfg: Config, s: State, calls: seq<Call>)
    requires Lawful(cfg) && Genesis(cfg, s) && AllowedRun(cfg, s, calls)
    ensures var s' := Run(cfg, s, calls);
            && s'.shareToken.Keys == s'.poolAssets.Keys == s'.totalLiquidity.Keys
            && (forall k :: k in s'.shareToken ==> PoolOk(cfg, s', k))
            && (forall k: AccountId :: k.XykPair? && k !in s'.shareToken ==>
                  Supply(s'.ledger, cfg.shareTokenOf(k)) == 0)
  {
    RunKeepsInv(cfg, s, calls);
    hide Run, AllowedRun, Lawful, Genesis, Supply, Free;
  }

  lemma NoSelfPool(cfg: Config, s: State)
    requires Inv(cfg, s)
    ensures !Exists(s, AssetPair(cfg.native, cfg.native))
  {
    if Exists(s, AssetPair(cfg.native, cfg.native)) {
      DistinctAssets(cfg, s, AssetPair(cfg.native, cfg.native));
    }
  }

  /** On consistent stores selling fails only in validation. */
  lemma SellSucceedsIff(cfg: Config, s: State, who: nat, assets: AssetPair, amount: nat, minBought: nat, discount: bool)
    requires Inv(cfg, s)
    ensures Sell(cfg, s, who, assets, amount, minBought, discount).Ok? <==>
              ValidateSell(cfg, s, who, assets, amount, minBought, discount).Ok?
  {
    hide Inv, Free, ValidateSell, ExecuteSell;
    var v := ValidateSell(cfg, s, who, assets, amount, minBought, discount);
    if v.Ok? {
      NoSelfPool(cfg, s);
      SellValidated(cfg, s, who, assets, amount, minBought, discount, v.value);
      DistinctAssets(cfg, s, assets);
      ValidatedSellExecutes(cfg, s, who, assets, amount, minBought, discount, v.value);
    }
  }

  /** On consistent stores a validated buy without discount executes; a discounted one does exactly when the native
      balance of the buyer covers the discount on top of whatever it pays for the purchase. */
  lemma BuySucceedsIff(cfg: Config, s: State, who: nat, assets: AssetPair, amount: nat, maxSold: nat, discount: bool)
    requires Inv(cfg, s)
    ensures var v := ValidateBuy(cfg, s, who, assets, amount, maxSold, discount);
            Buy(cfg, s, who, assets, amount, maxSold, discount).Ok? <==>
              && v.Ok?
              && (discount && assets.assetIn == cfg.native ==>
                    v.value.amountOut + v.value.fee + v.value.discountAmount <= Free(s.ledger, cfg.native, User(who)))
  {
    hide Inv, Free, ValidateBuy, ExecuteBuy;
    var v := ValidateBuy(cfg, s, who, assets, amount, maxSold, discount);
    if v.Ok? {
      NoSelfPool(cfg, s);
      BuyValidated(cfg, s, who, assets, amount, maxSold, discount, v.value);
      DistinctAssets(cfg, s, assets);
      ValidatedBuyExecutesIff(cfg, s, who, assets, amount, maxSold, discount, v.value);
    }
  }

  // Trading alone.

  predicate TradesOn(calls: seq<Call>, k: AccountId) {
    forall i :: 0 <= i < |calls| ==> (calls[i].SellCall? || calls[i].BuyCall?) && PairId(calls[i].assets) == k
  }

  /** What everybody but the pool holds of an asset. */
  ghost function Outside(l: Ledger, asset: AssetId, k: AccountId): int { Supply(l, asset) - Free(l, asset, k) }

  /** Between `l` and `l'` the reserve product of `k` did not fall and no asset was minted. */
  ghost predicate NoWorse(l: Ledger, l': Ledger, k: AccountId)
    requires k.XykPair?
  {
    && Product(l, k) <= Product(l', k)
    && Supply(l', k.lo) <= Supply(l, k.lo) && Supply(l', k.hi) <= Supply(l, k.hi)
  }

  lemma TradeNoWorse(cfg: Config, s: State, c: Call)
    requires Lawful(cfg) && Inv(cfg, s) && (c.SellCall? || c.BuyCall?)
    ensures NoWorse(s.ledger, Step(cfg, s, c).ledger, PairId(c.assets)) && Inv(cfg, Step(cfg, s, c))
    ensures PairId(c.assets) in s.shareToken ==> PairId(c.assets) in Step(cfg, s, c).shareToken
  {
    hide Sell, Buy, Lawful, Inv, Product, Free, Supply;
    if Dispatch(cfg, s, c).Ok? {
      var s' := Dispatch(cfg, s, c).value;
      match c
      case SellCall(w, p, x, m, d) => SellKeeps(cfg, s, w, p, x, m, d, s'); TradesKeepStores(cfg, s, c);
      case BuyCall(w, p, x, m, d) => BuyKeeps(cfg, s, w, p, x, m, d, s'); TradesKeepStores(cfg, s, c);
    }
  }

  lemma TradesKeepStores(cfg: Config, s: State, c: Call)
    requires c.SellCall? || c.BuyCall?
    ensures var s' := Step(cfg, s, c); s' == s.(ledger := s'.ledger)
  {
    hide ValidateSell, ValidateBuy, ExecuteSell, ExecuteBuy;
  }

  lemma {:induction false} TradesNoWorse(cfg: Config, s: State, calls: seq<Call>, k: AccountId)
    requires Lawful(cfg) && Inv(cfg, s) && k in s.shareToken && k.XykPair? && TradesOn(calls, k)
    ensures NoWorse(s.ledger, Run(cfg, s, calls).ledger, k)
    ensures Inv(cfg, Run(cfg, s, calls)) && k in Run(cfg, s, calls).shareToken
    decreases |calls|
  {
    hide Lawful, Inv, Product, Step, Supply;
    if calls != [] {
      TradeNoWorse(cfg, s, calls[0]);
      TradesNoWorse(cfg, Step(cfg, s, calls[0]), calls[1..], k);
    }
  }

  /** With a product that did not fall, a reserve that did not grow forces the other not to shrink. */
  lemma OtherReserveGrew(x: nat, y: nat, x': nat, y': nat)
    requires x * y <= x' * y' && x' <= x && 0 < x'
    ensures y <= y'
  {
    if y' < y {
      MulMonotone(x', x, y');
      MulMonotone(y' + 1, y, x);
      Distribute(x, y', 1);
    }
  }

  /** No gain from trading alone. Whoever trades on a pool, in whatever order and with or without discounts: the
      reserve product never falls, and if together the traders end with no less of one asset than they started
      with, then together they end with no more of the other. */
  lemma NoGainFromTrading(cfg: Config, s: State, calls: seq<Call>, k: AccountId)
    requires Lawful(cfg) && Inv(cfg, s) && k in s.shareToken && k.XykPair? && TradesOn(calls, k)
    ensures var l, l' := s.ledger, Run(cfg, s, calls).ledger;
            && Product(l, k) <= Product(l', k)
            && (Outside(l, k.lo, k) <= Outside(l', k.lo, k) ==> Outside(l', k.hi, k) <= Outside(l, k.hi, k))
            && (Outside(l, k.hi, k) <= Outside(l', k.hi, k) ==> Outside(l', k.lo, k) <= Outside(l, k.lo, k))
  {
    TradesNoWorse(cfg, s, calls, k);
    hide Lawful, Supply, Free, Run;
    var s' := Run(cfg, s, calls);
    var l, l' := s.ledger, s'.ledger;
    assert PoolOk(cfg, s', k);
    if Outside(l, k.lo, k) <= Outside(l', k.lo, k) {
      OtherReserveGrew(Free(l, k.lo, k), Free(l, k.hi, k), Free(l', k.lo, k), Free(l', k.hi, k));
    }
    if Outside(l, k.hi, k) <= Outside(l', k.hi, k) {
      OtherReserveGrew(Free(l, k.hi, k), Free(l, k.lo, k), Free(l', k.hi, k), Free(l', k.lo, k));
    }
  }

  // Splitting a withdrawal.

  /** Removing the amounts one after the other. */
  function RemoveEach(cfg: Config, s: State, who: nat, a: AssetId, b: AssetId, amounts: seq<nat>): Result<State, Error>
    decreases |amounts|
  {
    if amounts == [] then Ok(s)
    else
      var s' :- RemoveLiquidity(cfg, s, who, a, b, amounts[0]);
      RemoveEach(cfg, s', who, a, b, amounts[1..])
  }

  function Total(amounts: seq<nat>): nat
    decreases |amounts|
  {
    if amounts == [] then 0 else amounts[0] + Total(amounts[1..])
  }

  /** What a share is worth in `x` did not fall: `r / t <= r' / t'`, cross-multiplied. */
  ghost predicate WorthKept(r: nat, t: nat, r': nat, t': nat) { r * t' <= r' * t }

  lemma WorthTransitive(r: nat, t: nat, r1: nat, t1: nat, r2: nat, t2: nat)
    requires WorthKept(r, t, r1, t1) && WorthKept(r1, t1, r2, t2) && 0 < t1
    ensures WorthKept(r, t, r2, t2)
  {
    MulMonotone(r * t1, r1 * t, t2);
    MulMonotone(r1 * t2, r2 * t1, t);
    assert (r * t2) * t1 == (r * t1) * t2 && (r1 * t) * t2 == (r1 * t2) * t && (r2 * t1) * t == (r2 * t) * t1;
    if r * t2 > r2 * t {
      MulMonotone(r2 * t + 1, r * t2, t1);
      Distribute(t1, r2 * t, 1);
    }
  }

  /** The state after removing `amount` from the pool of `a` and `b`, seen by one asset and the user. */
  ghost predicate Drained(cfg: Config, s: State, s': State, who: nat, k: AccountId, x: AssetId, amount: nat)
    requires k.XykPair?
  {
    && amount <= TotalAt(s, k) && TotalAt(s', k) == TotalAt(s, k) - amount
    && WorthKept(Free(s.ledger, x, k), TotalAt(s, k), Free(s'.ledger, x, k), TotalAt(s', k))
    && Free(s'.ledger, x, k) <= Free(s.ledger, x, k)
    && Free(s'.ledger, x, User(who)) == Free(s.ledger, x, User(who)) + Free(s.ledger, x, k) - Free(s'.ledger, x, k) -
         if x == cfg.shareTokenOf(k) then amount else 0
  }

  lemma RemoveDrains(cfg: Config, s: State, who: nat, a: AssetId, b: AssetId, amount: nat, s': State, x: AssetId)
    requires Lawful(cfg) && Inv(cfg, s) && RemoveLiquidity(cfg, s, who, a, b, amount) == Ok(s') && (x == a || x == b)
    ensures Inv(cfg, s') && Drained(cfg, s, s', who, PairId(AssetPair(a, b)), x, amount) && amount > 0
  {
    hide Supply, Free, Lawful, Inv, RemoveLiquidity, LiquidityOut;
    var k := PairId(AssetPair(a, b));
    DistinctRemoved(cfg, s, who, a, b, amount);
    var outA, outB := RemoveLiquidityKeeps(cfg, s, who, a, b, amount, s');
    ShareOfReserve(Free(s.ledger, a, k), amount, TotalAt(s, k), outA);
    ShareOfReserve(Free(s.ledger, b, k), amount, TotalAt(s, k), outB);
  }

  lemma DistinctRemoved(cfg: Config, s: State, who: nat, a: AssetId, b: AssetId, amount: nat)
    requires Inv(cfg, s) && RemoveLiquidity(cfg, s, who, a, b, amount).Ok?
    ensures a != b
  {
    assert Exists(s, AssetPair(a, b));
    DistinctAssets(cfg, s, AssetPair(a, b));
  }

  lemma DrainedTwice(cfg: Config, s: State, s1: State, s2: State, who: nat, k: AccountId, x: AssetId, m: nat, n: nat)
    requires k.XykPair? && Drained(cfg, s, s1, who, k, x, m) && Drained(cfg, s1, s2, who, k, x, n) && 0 < TotalAt(s1, k)
    ensures Drained(cfg, s, s2, who, k, x, m + n)
  {
    hide Free, WorthKept;
    WorthTransitive(Free(s.ledger, x, k), TotalAt(s, k),
                    Free(s1.ledger, x, k), TotalAt(s1, k), Free(s2.ledger, x, k), TotalAt(s2, k));
  }

  lemma {:induction false} EachDrains(cfg: Config, s: State, who: nat, a: AssetId, b: AssetId, amounts: seq<nat>,
                                      s': State, x: AssetId)
    requires Lawful(cfg) && Inv(cfg, s) && amounts != [] && RemoveEach(cfg, s, who, a, b, amounts) == Ok(s')
             && (x == a || x == b)
    ensures Drained(cfg, s, s', who, PairId(AssetPair(a, b)), x, Total(amounts))
    ensures 0 < TotalAt(s, PairId(AssetPair(a, b)))
    decreases |amounts|
  {
    hide Free, Lawful, Inv, RemoveLiquidity, WorthKept;
    var k := PairId(AssetPair(a, b));
    var s1 := RemoveLiquidity(cfg, s, who, a, b, amounts[0]).value;
    RemoveDrains(cfg, s, who, a, b, amounts[0], s1, x);
    if amounts[1..] == [] {
      assert Total(amounts[1..]) == 0;
    } else {
      EachDrains(cfg, s1, who, a, b, amounts[1..], s', x);
      DrainedTwice(cfg, s, s1, s', who, k, x, amounts[0], Total(amounts[1..]));
    }
  }

  /** One call leaves the smallest reserve that keeps the worth of a share. */
  lemma OneCallPaysMost(r: nat, t: nat, shares: nat, out: nat, r': nat)
    requires shares <= t && LiquidityOut(r, shares, t) == Some(out)
    requires WorthKept(r, t, r', t - shares)
    ensures r - out <= r'
  {
    Distribute(r, t - shares, shares);
    Distribute(t, r - r', r');
    assert r' * t == t * r' && t * r == r * t && shares * r == r * shares;
    DivAtLeast(shares * r, t, r - r');
  }

  /** Splitting a withdrawal does not pay: removing the amounts one by one leaves the same shares outstanding, and
      gives the user no more of either asset than removing their sum at once. */
  lemma SplittingPaysNoMore(cfg: Config, s: State, who: nat, a: AssetId, b: AssetId, amounts: seq<nat>, split: State,
                            once: State, x: AssetId)
    requires Lawful(cfg) && Inv(cfg, s) && amounts != [] && (x == a || x == b)
    requires RemoveEach(cfg, s, who, a, b, amounts) == Ok(split)
    requires RemoveLiquidity(cfg, s, who, a, b, Total(amounts)) == Ok(once)
    ensures TotalAt(split, PairId(AssetPair(a, b))) == TotalAt(once, PairId(AssetPair(a, b)))
    ensures Free(split.ledger, x, User(who)) <= Free(once.ledger, x, User(who))
  {
    hide Free, Lawful, Inv, RemoveLiquidity, WorthKept, RemoveEach, LiquidityOut, Supply;
    var k := PairId(AssetPair(a, b));
    EachDrains(cfg, s, who, a, b, amounts, split, x);
    RemoveDrains(cfg, s, who, a, b, Total(amounts), once, x);
    DistinctRemoved(cfg, s, who, a, b, Total(amounts));
    var outA, outB := RemoveLiquidityKeeps(cfg, s, who, a, b, Total(amounts), once);
    OneCallPaysMost(Free(s.ledger, x, k), TotalAt(s, k), Total(amounts), if x == a then outA else outB,
                    Free(split.ledger, x, k));
  }

  /** The conditions under which shares can be removed at all, as the call checks them. */
  predicate Removable(cfg: Config, s: State, who: nat, k: AccountId, amount: nat) {
    var held := Free(s.ledger, TokenAt(s, k), User(who));
    && amount != 0 && k in s.shareToken && amount <= TotalAt(s, k) && amount <= held
    && (held - amount >= cfg.minLiquidity || held == amount)
  }

  /** On reserves that fit a balance, removing succeeds exactly under those conditions. */
  lemma RemoveSucceedsIff(cfg: Config, s: State, who: nat, a: AssetId, b: AssetId, amount: nat)
    requires Lawful(cfg) && Inv(cfg, s) && cfg.shareTokenOf(PairId(AssetPair(a, b))) !in {a, b}
    requires Free(s.ledger, a, PairId(AssetPair(a, b))) <= MAX_U128
    requires Free(s.ledger, b, PairId(AssetPair(a, b))) <= MAX_U128
    ensures RemoveLiquidity(cfg, s, who, a, b, amount).Ok? <==> Removable(cfg, s, who, PairId(AssetPair(a, b)), amount)
  {
    hide Free, Supply, LiquidityOut, Pay, Burn;
    var k := PairId(AssetPair(a, b));
    if Removable(cfg, s, who, k, amount) {
      DistinctAssets(cfg, s, AssetPair(a, b));
      var t := TotalAt(s, k);
      ShareFits(Free(s.ledger, a, k), amount, t);
      ShareFits(Free(s.ledger, b, k), amount, t);
      var outA := LiquidityOut(Free(s.ledger, a, k), amount, t).value;
      var outB := LiquidityOut(Free(s.ledger, b, k), amount, t).value;
      PaySucceedsIff(s.ledger, a, k, User(who), outA);
      var l1 := Pay(s.ledger, a, k, User(who), outA).value;
      PayEffect(s.ledger, a, k, User(who), outA, l1);
      PaySucceedsIff(l1, b, k, User(who), outB);
      var l2 := Pay(l1, b, k, User(who), outB).value;
      PayEffect(l1, b, k, User(who), outB, l2);
      BurnSucceedsIff(l2, TokenAt(s, k), User(who), amount);
    }
  }

  lemma BurnSucceedsIff(l: Ledger, asset: AssetId, who: AccountId, amount: nat)
    ensures Burn(l, asset, who, amount).Ok? <==> amount <= Free(l, asset, who)
  {
  }

  lemma ShareFits(r: nat, shares: nat, t: nat)
    requires shares <= t && 0 < t && r <= MAX_U128
    ensures LiquidityOut(r, shares, t).Some? && LiquidityOut(r, shares, t).value <= r
  {
    MulMonotone(shares, t, r);
    DivBelow(shares * r, t, r + 1);
  }

  /** Whatever can be removed in pieces can be removed in one call. */
  lemma {:induction false} SplitCanBeOneCall(cfg: Config, s: State, who: nat, a: AssetId, b: AssetId, amounts: seq<nat>)
    requires Lawful(cfg) && Inv(cfg, s) && amounts != [] && cfg.shareTokenOf(PairId(AssetPair(a, b))) !in {a, b}
    requires RemoveEach(cfg, s, who, a, b, amounts).Ok?
    ensures Removable(cfg, s, who, PairId(AssetPair(a, b)), Total(amounts))
    decreases |amounts|
  {
    hide Free, Lawful, Supply, Pay, Burn, LiquidityOut, Inv;
    var k := PairId(AssetPair(a, b));
    assert Removable(cfg, s, who, k, amounts[0]);
    hide RemoveLiquidity;
    var s1 := RemoveLiquidity(cfg, s, who, a, b, amounts[0]).value;
    var outA, outB := RemoveLiquidityKeeps(cfg, s, who, a, b, amounts[0], s1);
    assert Total(amounts) == amounts[0] + Total(amounts[1..]);
    if amounts[1..] != [] {
      SplitCanBeOneCall(cfg, s1, who, a, b, amounts[1..]);
      SameToken(cfg, s, s1, k);
      hide RemoveEach;
    }
  }

  lemma SameToken(cfg: Config, s: State, s': State, k: AccountId)
    requires Inv(cfg, s) && Inv(cfg, s') && k in s.shareToken && k in s'.shareToken
    ensures TokenAt(s, k) == TokenAt(s', k) == cfg.shareTokenOf(k)
  {
    assert PoolOk(cfg, s, k) && PoolOk(cfg, s', k);
  }
}
