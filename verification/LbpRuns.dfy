/** Runs of the bootstrapping pallet. */
module LbpRuns {
  import opened Basics
  import opened Ledgers
  import opened Lbp
  import opened LbpLaws

  datatype Call =
    | Create(owner: AccountId, a: AssetId, amountA: nat, b: AssetId, amountB: nat, initialWeight: nat, finalWeight: nat,
             fee: (nat, nat), collector: AccountId, repayTarget: nat)
    | Change(who: nat, pool: AccountId, update: Update)
    | Add(who: nat, a: AssetId, amountA: nat, b: AssetId, amountB: nat)
    | Remove(who: nat, pool: AccountId)
    | SellCall(who: nat, assets: AssetPair, amount: nat, limit: nat)
    | BuyCall(who: nat, assets: AssetPair, amount: nat, limit: nat)
    | Others(ledger: Ledger, block: nat)   // other pallets and time

  function Dispatch(cfg: Config, s: State, c: Call): Result<State, Error> {
    match c
    case Create(o, a, x, b, y, i, f, fee, col, r) => CreatePool(cfg, s, o, a, x, b, y, i, f, fee, col, r)
    case Change(w, k, u) => UpdatePool(s, w, k, u)
    case Add(w, a, x, b, y) => AddLiquidity(s, w, a, x, b, y)
    case Remove(w, k) => RemoveLiquidity(s, w, k)
    case SellCall(w, p, x, m) => Sell(cfg, s, w, p, x, m)
    case BuyCall(w, p, x, m) => Buy(cfg, s, w, p, x, m)
    case Others(l, b) => Ok(s.(ledger := l, block := b))
  }

  /** A failed call changes nothing. */
  function Step(cfg: Config, s: State, c: Call): State {
    match Dispatch(cfg, s, c)
    case Ok(s') => s'
    case Err(_) => s
  }

  /** Time does not run backwards; nobody else sets collector locks. */
  predicate Allowed(s: State, c: Call) { c.Others? ==> s.block <= c.block }

  function Run(cfg: Config, s: State, calls: seq<Call>): State
    decreases |calls|
  {
    if calls == [] then s else Run(cfg, Step(cfg, s, calls[0]), calls[1..])
  }

  predicate AllowedRun(cfg: Config, s: State, calls: seq<Call>)
    decreases |calls|
  {
    calls != [] ==> Allowed(s, calls[0]) && AllowedRun(cfg, Step(cfg, s, calls[0]), calls[1..])
  }

  /** A validated trade is on a running sale of the pair and pays its fee in the accumulated asset. */
  lemma ValidTrade(cfg: Config, s: State, who: nat, assets: AssetPair, amount: nat, limit: nat, t: Trade)
    requires Inv(s)
    requires ValidateSell(cfg, s, who, assets, amount, limit) == Ok(t) ||
             ValidateBuy(cfg, s, who, assets, amount, limit) == Ok(t)
    ensures var k := PairId(assets.assetIn, assets.assetOut);
            && k in s.pools && Running(s.pools[k], s.block)
            && t.assets == assets && t.feeAsset == s.pools[k].assets.0 && t.origin == who
            && assets.assetIn != assets.assetOut
            && (var w := SortedWeights(s.pools[k], assets.assetIn, s.block);
                w.Ok? && 0 < w.value.0 < MAX_WEIGHT && 0 < w.value.1 < MAX_WEIGHT &&
                w.value.0 + w.value.1 == MAX_WEIGHT)
  {
    hide Inv, ValidateSell, ValidateBuy, Running, SortedWeights, Free;
    var k := PairId(assets.assetIn, assets.assetOut);
    if ValidateSell(cfg, s, who, assets, amount, limit) == Ok(t) {
      SellAmounts(cfg, s, who, assets, amount, limit, t);
      PoolAssets(s, assets);
    } else {
      BuyNeedsPool(cfg, s, who, assets, amount, limit);
      PoolAssets(s, assets);
      BuyAmounts(cfg, s, who, assets, amount, limit, t);
    }
    IsShaped(s, k);
    WeightsInRange(s.pools[k], s.block, assets.assetIn);
  }

  lemma BuyNeedsPool(cfg: Config, s: State, who: nat, assets: AssetPair, amount: nat, limit: nat)
    requires ValidateBuy(cfg, s, who, assets, amount, limit).Ok?
    ensures PairId(assets.assetIn, assets.assetOut) in s.pools
  {
    hide SortedWeights, FeeFor, Free;
  }

  lemma IsShaped(s: State, k: AccountId)
    requires Inv(s) && k in s.pools
    ensures Shaped(s.pools[k])
  {
    assert PoolOk(s, k);
  }

  lemma StepKeepsInv(cfg: Config, s: State, c: Call)
    requires Inv(s) && Allowed(s, c)
    ensures Inv(Step(cfg, s, c))
  {
    hide Inv, CreatePool, UpdatePool, RemoveLiquidity, ValidateSell, ValidateBuy, ExecuteTrade, Free, Pay, Running,
         SortedWeights;
    var r := Dispatch(cfg, s, c);
    if r.Ok? {
      var s' := r.value;
      match c
      case Create(o, a, x, b, y, i, f, fee, col, t) => CreateKeeps(cfg, s, o, a, x, b, y, i, f, fee, col, t, s');
      case Change(w, k, u) => UpdateKeeps(s, w, k, u, s');
      case Add(_, _, _, _, _) => SameStorageKeeps(s, s');
      case Remove(w, k) => RemoveKeeps(s, w, k, s');
      case SellCall(w, p, x, m) =>
        var t := ValidateSell(cfg, s, w, p, x, m).value;
        ValidTrade(cfg, s, w, p, x, m, t);
        TradeKeeps(s, t, s');
      case BuyCall(w, p, x, m) =>
        var t := ValidateBuy(cfg, s, w, p, x, m).value;
        ValidTrade(cfg, s, w, p, x, m, t);
        TradeKeeps(s, t, s');
      case Others(_, _) => SameStorageKeeps(s, s');
    }
  }

  lemma {:induction false} RunKeepsInv(cfg: Config, s: State, calls: seq<Call>)
    requires Inv(s) && AllowedRun(cfg, s, calls)
    ensures Inv(Run(cfg, s, calls))
    decreases |calls|
  {
    hide Inv, Step;
    if calls != [] {
      StepKeepsInv(cfg, s, calls[0]);
      RunKeepsInv(cfg, Step(cfg, s, calls[0]), calls[1..]);
    }
  }

  function Genesis(ledger: Ledger, block: nat): State { State(map[], {}, map[], ledger, block, map[]) }

  predicate Uses(s: State, k: AccountId, slot: Slot) { k in s.pools && SlotOf(s.pools[k]) == slot }

  /** In every reachable state: a collector is indexed for an asset exactly when a pool uses it for that accumulated
      asset, and then only one; the collector's lock is the sum of the fees of all trades on that pool, and nothing
      where no pool uses it; no fee was taken before the start; and start and end come together, in order and close
      enough. */
  lemma ReachableSales(cfg: Config, ledger: Ledger, block: nat, calls: seq<Call>, slot: Slot)
    requires AllowedRun(cfg, Genesis(ledger, block), calls)
    ensures var s := Run(cfg, Genesis(ledger, block), calls);
            && (slot in s.collectors <==> exists k :: Uses(s, k, slot))
            && (forall k, k' :: Uses(s, k, slot) && Uses(s, k', slot) ==> k == k')
            && (forall k :: Uses(s, k, slot) ==> LockOf(s.locks, slot) == FeesOf(s, k))
            && (slot !in s.collectors ==> LockOf(s.locks, slot) == 0)
            && (forall k :: k in s.pools ==> Shaped(s.pools[k]))
            && (forall k :: k in s.pools && !Started(s.pools[k], s.block) ==> FeesOf(s, k) == 0)
  {
    assert Slots(map[]) == {};
    RunKeepsInv(cfg, Genesis(ledger, block), calls);
    var s := Run(cfg, Genesis(ledger, block), calls);
    assert forall k :: k in s.pools ==> PoolOk(s, k);
    if slot in s.collectors {
      var k :| k in s.pools && SlotOf(s.pools[k]) == slot;
      assert Uses(s, k, slot);
    }
    hide Run, AllowedRun, Shaped, Started, LockOf, SlotOf;
  }

  // A started sale.

  /** The sale of `k` at `s` is on at `s'` with the same record and no less collected. */
  ghost predicate GoesOn(s: State, s': State, k: AccountId)
    requires k in s.pools
  {
    && k in s'.pools && s'.pools[k] == s.pools[k]
    && FeesOf(s, k) <= FeesOf(s', k)
    && Collected(s, s.pools[k]) <= Collected(s', s.pools[k])
  }

  lemma TradeGoesOn(s: State, t: Trade, s': State, k: AccountId)
    requires Inv(s) && k in s.pools && ExecuteTrade(s, t) == Ok(s')
    requires var j := PairId(t.assets.assetIn, t.assets.assetOut); j in s.pools && t.feeAsset == s.pools[j].assets.0
    ensures GoesOn(s, s', k)
  {
    hide Inv, ExecuteTrade, LockOf;
    TradeStorage(s, t, s');
  }

  /** Once started, a record does not change, and it cannot be removed before its end has passed. */
  lemma StepFrozen(cfg: Config, s: State, c: Call, k: AccountId)
    requires Inv(s) && Allowed(s, c) && k in s.pools && Started(s.pools[k], s.block)
    ensures var s' := Step(cfg, s, c);
            || GoesOn(s, s', k)
            || (&& c.Remove? && c.pool == k && User(c.who) == s.pools[k].owner && k !in s'.pools
                && s.pools[k].end.Some? && s.pools[k].end.value < s.block)
    ensures s.block <= Step(cfg, s, c).block
  {
    hide Inv, ValidateSell, ValidateBuy, ExecuteTrade, Free, Pay, SortedWeights, Shaped;
    IsShaped(s, k);
    var r := Dispatch(cfg, s, c);
    if r.Ok? {
      var s' := r.value;
      match c
      case Create(o, a, x, b, y, i, f, fee, col, t) =>
      case Change(w, j, u) => assert j != k;
      case Add(_, _, _, _, _) =>
      case Remove(w, j) => RemovedGoesOn(s, w, j, s', k);
      case SellCall(w, p, x, m) =>
        var t := ValidateSell(cfg, s, w, p, x, m).value;
        ValidTrade(cfg, s, w, p, x, m, t);
        TradeGoesOn(s, t, s', k);
        TradeStorage(s, t, s');
      case BuyCall(w, p, x, m) =>
        var t := ValidateBuy(cfg, s, w, p, x, m).value;
        ValidTrade(cfg, s, w, p, x, m, t);
        TradeGoesOn(s, t, s', k);
        TradeStorage(s, t, s');
      case Others(_, _) =>
    }
  }

  lemma RemovedGoesOn(s: State, who: nat, j: AccountId, s': State, k: AccountId)
    requires Inv(s) && k in s.pools && Started(s.pools[k], s.block) && RemoveLiquidity(s, who, j) == Ok(s')
    ensures s'.block == s.block
    ensures if j == k
            then User(who) == s.pools[k].owner && k !in s'.pools &&
                 s.pools[k].end.Some? && s.pools[k].end.value < s.block
            else GoesOn(s, s', k)
  {
    hide Inv, Free, Pay, LockOf, Slots, Unique, RemoveLiquidity;
    IsShaped(s, k);
    RemoveNeeds(s, who, j);
    IsPair(s, j);
    DrainsPool(s, who, j, s');
    if j != k {
      OthersElsewhere(s, j);
      HasFees(s, k);
    }
  }

  lemma RemoveNeeds(s: State, who: nat, k: AccountId)
    requires RemoveLiquidity(s, who, k).Ok?
    ensures k in s.pools && User(who) == s.pools[k].owner && !Running(s.pools[k], s.block)
  {
    hide Pay, Free;
  }

  lemma HasFees(s: State, k: AccountId)
    requires Inv(s) && k in s.pools
    ensures k in s.fees
  {
  }

  lemma {:induction false} BlockGrows(cfg: Config, s: State, calls: seq<Call>)
    requires AllowedRun(cfg, s, calls)
    ensures s.block <= Run(cfg, s, calls).block
    decreases |calls|
  {
    if calls != [] {
      StepBlock(cfg, s, calls[0]);
      hide Step;
      BlockGrows(cfg, Step(cfg, s, calls[0]), calls[1..]);
    }
  }

  lemma StepBlock(cfg: Config, s: State, c: Call)
    requires Allowed(s, c)
    ensures s.block <= Step(cfg, s, c).block
  {
    hide Free, Pay, SortedWeights, FeeFor, ValidatePool;
  }

  /** Frozen until the end: whatever calls follow the start of a sale, as long as its end has not passed the record is
      the same, what the collector holds locked has not fallen, and so the fee rate has switched from the repay fee to
      the pool's fee at most once and never back. */
  lemma {:induction false} FrozenUntilEnd(cfg: Config, s: State, calls: seq<Call>, k: AccountId)
    requires Inv(s) && AllowedRun(cfg, s, calls) && k in s.pools && Started(s.pools[k], s.block)
    requires s.pools[k].end.Some? && Run(cfg, s, calls).block <= s.pools[k].end.value
    ensures GoesOn(s, Run(cfg, s, calls), k)
    ensures !Repaying(s, s.pools[k]) ==>
              !Repaying(Run(cfg, s, calls), s.pools[k]) && Rate(Run(cfg, s, calls), s.pools[k]) == s.pools[k].fee
    decreases |calls|
  {
    hide Inv, Step, Allowed, LockOf;
    if calls != [] {
      var s1 := Step(cfg, s, calls[0]);
      BlockGrows(cfg, s, calls);
      StepFrozen(cfg, s, calls[0], k);
      StepKeepsInv(cfg, s, calls[0]);
      FrozenUntilEnd(cfg, s1, calls[1..], k);
    }
  }
}
