/** The bootstrapping pallet as it runs: records, index, locks and ledger rewritten in place. Each method does what the
    function of the same name in `Lbp` says. */
module LbpPallet {
  import opened Basics
  import opened Ledgers
  import opened Lbp
  import LbpLaws
  import opened LbpRuns

  class Pallet {
    const cfg: Config
    var pools: map<AccountId, Pool>
    var collectors: set<Slot>
    var locks: map<Slot, nat>
    var ledger: Ledger
    var block: nat
    var fees: map<AccountId, nat>

    function Storage(): State
      reads this
    {
      State(pools, collectors, locks, ledger, block, fees)
    }

    constructor (cfg: Config, ledger: Ledger, block: nat)
      ensures this.cfg == cfg && Storage() == Genesis(ledger, block)
    {
      this.cfg, this.ledger, this.block := cfg, ledger, block;
      pools, collectors, locks, fees := map[], {}, map[], map[];
    }

    method Restore(s: State)
      modifies this
      ensures Storage() == s
    {
      pools, collectors, locks, ledger, block, fees := s.pools, s.collectors, s.locks, s.ledger, s.block, s.fees;
    }

    method Move(asset: AssetId, from: AccountId, to: AccountId, amount: nat) returns (r: Result<(), Error>)
      modifies `ledger
      ensures match r
              case Ok(_) => Pay(locks, old(ledger), asset, from, to, amount) == Ok(ledger)
              case Err(e) => Pay(locks, old(ledger), asset, from, to, amount) == Err(e)
    {
      if amount == 0 || from == to { return Ok(()); }
      var locked := if (from, asset) in locks then locks[(from, asset)] else 0;
      if Free(ledger, asset, from) < amount + locked { return Err(LiquidityRestricted(from)); }
      ledger := Transfer(ledger, asset, from, to, amount).value;
      return Ok(());
    }

    method CreatePool(owner: AccountId, a: AssetId, amountA: nat, b: AssetId, amountB: nat, initialWeight: nat,
                      finalWeight: nat, fee: (nat, nat), collector: AccountId, repayTarget: nat)
      returns (r: Result<(), Error>)
      modifies this
      ensures Ran(Lbp.CreatePool(cfg, old(Storage()), owner, a, amountA, b, amountB,
                                 initialWeight, finalWeight, fee, collector, repayTarget),
                  r, Storage())
    {
      hide Pay, Free, ValidatePool;
      if amountA < cfg.minLiquidity || amountB < cfg.minLiquidity { return Err(InsufficientLiquidity); }
      if a == b { return Err(CannotCreatePoolWithSameAssets); }
      var k := PairId(a, b);
      if k in pools { return Err(PoolAlreadyExists); }
      if (collector, a) in collectors { return Err(FeeCollectorWithAssetAlreadyUsed); }
      if Free(ledger, a, owner) < amountA { return Err(InsufficientAssetBalance); }
      if Free(ledger, b, owner) < amountB { return Err(InsufficientAssetBalance); }
      var pool := Pool(owner, None, None, (a, b), initialWeight, finalWeight, fee, collector, repayTarget);
      var ok := ValidatePool(pool, block);
      if ok.Fail? { return Err(ok.error); }
      pools, fees := pools[k := pool], fees[k := 0];
      collectors := collectors + {(collector, a)};
      var _ :- Move(a, owner, k, amountA);
      var _ :- Move(b, owner, k, amountB);
      return Ok(());
    }

    method ChangeFields(old': Pool, u: Update) returns (pool: Pool)
      ensures pool == Updated(old', u).(feeCollector := old'.feeCollector)
    {
      pool := old';
      if u.owner.Some? { pool := pool.(owner := u.owner.value); }
      if u.start.Some? { pool := pool.(start := u.start); }
      if u.end.Some? { pool := pool.(end := u.end); }
      if u.initialWeight.Some? { pool := pool.(initialWeight := u.initialWeight.value); }
      if u.finalWeight.Some? { pool := pool.(finalWeight := u.finalWeight.value); }
      if u.fee.Some? { pool := pool.(fee := u.fee.value); }
      if u.repayTarget.Some? { pool := pool.(repayTarget := u.repayTarget.value); }
    }

    /** The record is changed field by field and validated at the end. */
    method UpdatePool(who: nat, k: AccountId, u: Update) returns (r: Result<(), Error>)
      modifies `pools, `collectors
      ensures Ran(Lbp.UpdatePool(old(Storage()), who, k, u), r, Storage())
    {
      hide ValidatePool;
      if k !in pools { return Err(PoolNotFound); }
      var pool := pools[k];
      if !UpdatesSomething(u) { return Err(NothingToUpdate); }
      if User(who) != pool.owner { return Err(NotOwner); }
      if Started(pool, block) { return Err(SaleStarted); }
      pool := ChangeFields(pool, u);
      if u.feeCollector.Some? {
        var a := pool.assets.0;
        if (u.feeCollector.value, a) in collectors { return Err(FeeCollectorWithAssetAlreadyUsed); }
        collectors := collectors - {(pool.feeCollector, a)};
        collectors := collectors + {(u.feeCollector.value, a)};
        pool := pool.(feeCollector := u.feeCollector.value);
      }
      assert pool == Updated(pools[k], u);
      hide Updated;
      var ok := ValidatePool(pool, block);
      if ok.Fail? { return Err(ok.error); }
      pools := pools[k := pool];
      return Ok(());
    }

    method AddLiquidity(who: nat, a: AssetId, amountA: nat, b: AssetId, amountB: nat) returns (r: Result<(), Error>)
      modifies `ledger
      ensures Ran(Lbp.AddLiquidity(old(Storage()), who, a, amountA, b, amountB), r, Storage())
    {
      hide Pay, Free;
      var k := PairId(a, b);
      if k !in pools { return Err(PoolNotFound); }
      if User(who) != pools[k].owner { return Err(NotOwner); }
      if amountA == 0 && amountB == 0 { return Err(CannotAddZeroLiquidity); }
      if amountA != 0 && Free(ledger, a, User(who)) < amountA { return Err(InsufficientAssetBalance); }
      if amountB != 0 && Free(ledger, b, User(who)) < amountB { return Err(InsufficientAssetBalance); }
      var _ :- Move(a, User(who), k, amountA);
      r := Move(b, User(who), k, amountB);
    }

    method RemoveLiquidity(who: nat, k: AccountId) returns (r: Result<(), Error>)
      modifies this
      ensures Ran(Lbp.RemoveLiquidity(old(Storage()), who, k), r, Storage())
    {
      hide Pay, Free;
      if k !in pools { return Err(PoolNotFound); }
      var pool := pools[k];
      if User(who) != pool.owner { return Err(NotOwner); }
      if Running(pool, block) { return Err(SaleNotEnded); }
      var amountA, amountB := Free(ledger, pool.assets.0, k), Free(ledger, pool.assets.1, k);
      var _ :- Move(pool.assets.0, k, User(who), amountA);
      var _ :- Move(pool.assets.1, k, User(who), amountB);
      var slot := (pool.feeCollector, pool.assets.0);
      if LockOf(locks, slot) > 0 { locks := locks - {slot}; }
      collectors := collectors - {slot};
      pools, fees := pools - {k}, fees - {k};
      return Ok(());
    }

    method ExecuteTrade(t: Trade) returns (r: Result<(), Error>)
      modifies `ledger, `locks, `fees
      ensures Ran(Lbp.ExecuteTrade(old(Storage()), t), r, Storage())
    {
      hide Pay, Free;
      var k := PairId(t.assets.assetIn, t.assets.assetOut);
      if k !in pools { return Err(PoolNotFound); }
      var pool := pools[k];
      var _ :- Move(t.assets.assetIn, User(t.origin), k, t.amount);
      var _ :- Move(t.assets.assetOut, k, User(t.origin), t.amountOut);
      var payer := if t.assets.assetIn == t.feeAsset then User(t.origin) else k;
      var _ :- Move(t.feeAsset, payer, pool.feeCollector, t.fee);
      var total := LockOf(locks, (pool.feeCollector, pool.assets.0)) + t.fee;
      if total != 0 { locks := locks[(pool.feeCollector, t.feeAsset) := total]; }
      fees := fees[k := (if k in fees then fees[k] else 0) + t.fee];
      return Ok(());
    }

    method Sell(who: nat, assets: AssetPair, amount: nat, minBought: nat) returns (r: Result<(), Error>)
      modifies `ledger, `locks, `fees
      ensures Ran(Lbp.Sell(cfg, old(Storage()), who, assets, amount, minBought), r, Storage())
    {
      hide ValidateSell, Lbp.ExecuteTrade;
      var t :- ValidateSell(cfg, Storage(), who, assets, amount, minBought);
      r := ExecuteTrade(t);
    }

    method Buy(who: nat, assets: AssetPair, amount: nat, maxSold: nat) returns (r: Result<(), Error>)
      modifies `ledger, `locks, `fees
      ensures Ran(Lbp.Buy(cfg, old(Storage()), who, assets, amount, maxSold), r, Storage())
    {
      hide ValidateBuy, Lbp.ExecuteTrade;
      var t :- ValidateBuy(cfg, Storage(), who, assets, amount, maxSold);
      r := ExecuteTrade(t);
    }

    method Perform(c: Call) returns (r: Result<(), Error>)
      modifies this
      ensures Ran(LbpRuns.Dispatch(cfg, old(Storage()), c), r, Storage())
    {
      hide Lbp.CreatePool, Lbp.UpdatePool, Lbp.AddLiquidity, Lbp.RemoveLiquidity, Lbp.Sell, Lbp.Buy;
      match c
      case Create(o, a, x, b, y, i, f, fee, col, t) => r := CreatePool(o, a, x, b, y, i, f, fee, col, t);
      case Change(w, k, u) => r := UpdatePool(w, k, u);
      case Add(w, a, x, b, y) => r := AddLiquidity(w, a, x, b, y);
      case Remove(w, k) => r := RemoveLiquidity(w, k);
      case SellCall(w, p, x, m) => r := Sell(w, p, x, m);
      case BuyCall(w, p, x, m) => r := Buy(w, p, x, m);
      case Others(l, b) =>
        ledger, block := l, b;
        r := Ok(());
    }

    /** The transaction around a call: an error undoes every write. */
    method Dispatch(c: Call) returns (r: Result<(), Error>)
      modifies this
      ensures Storage() == Step(cfg, old(Storage()), c)
      ensures r.Ok? <==> LbpRuns.Dispatch(cfg, old(Storage()), c).Ok?
      ensures r.Err? ==> LbpRuns.Dispatch(cfg, old(Storage()), c) == Err(r.error)
      ensures old(LbpLaws.Inv(Storage()) && Allowed(Storage(), c)) ==> LbpLaws.Inv(Storage())
    {
      hide LbpLaws.Inv, LbpRuns.Dispatch, Allowed;
      var before := Storage();
      r := Perform(c);
      if r.Err? {
        Restore(before);
      }
      if LbpLaws.Inv(before) && Allowed(before, c) {
        StepKeepsInv(cfg, before, c);
      }
    }
  }
}
