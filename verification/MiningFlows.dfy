/** Where the money goes: the pallet creates and destroys no asset, and a call moves balances between its caller and the
    pallet's own accounts only, by the amounts it names. */
module MiningFlows {
  import opened Basics
  import opened Ledgers
  import opened NftIds
  import opened Mining
  import opened MiningRuns
  import opened MiningClaims

  predicate Ours(w: AccountId, who: nat) { w == User(who) || w.MiningPallet? || w.MiningPool? }

  /** Supplies are unchanged, and so is every account but the caller's and the pallet's. */
  ghost predicate Within(l: Ledger, l': Ledger, who: nat) {
    && (forall a :: Supply(l', a) == Supply(l, a))
    && (forall a, w :: !Ours(w, who) ==> Free(l', a, w) == Free(l, a, w))
    && l'.reserved == l.reserved
  }

  lemma WithinTransitive(l: Ledger, l1: Ledger, l2: Ledger, who: nat)
    requires Within(l, l1, who) && Within(l1, l2, who)
    ensures Within(l, l2, who)
  {
    hide Supply, Free, Ours;
  }

  lemma PayWithin(l: Ledger, asset: AssetId, from: AccountId, to: AccountId, amount: nat, l': Ledger, who: nat)
    requires Ours(from, who) && Ours(to, who) && Transfer(l, asset, from, to, amount) == Some(l')
    ensures Within(l, l', who)
  {
    hide Supply, Free, Transfer;
    forall a
      ensures Supply(l', a) == Supply(l, a)
    {
      TransferConserves(l, asset, from, to, amount, a);
    }
    forall a, w | !Ours(w, who)
      ensures Free(l', a, w) == Free(l, a, w)
    {
      TransferMoves(l, asset, from, to, amount, a, w);
    }
    TransferMoves(l, asset, from, to, amount, asset, from);
  }

  lemma TouchWithin(s: State, key: Key, now: nat, s': State, who: nat)
    requires Stored(s, key) && Touch(s, key, now) == Ok(s')
    ensures Within(s.ledger, s'.ledger, who)
  {
    hide MaybeUpdateFarm, ClaimFromGlobalPool, AccumulatedRps, Supply, Free, Transfer, Within;
    var farm, pool := s.farms[key.0], s.pools[key];
    if pool.canceled || pool.totalShares == 0 || pool.updatedAt == now {
      SameWithin(s.ledger, who);
    } else {
      var (farm1, _) := MaybeUpdateFarm(farm, key.0, s.ledger, now).value;
      var (farm2, pool1, rewards) := ClaimFromGlobalPool(farm1, pool).value;
      var (pool2, ledger', moved) := UpdateLiqPool(pool1, rewards, now, key.0, farm2.currency, s.ledger).value;
      if ledger' == s.ledger {
        SameWithin(s.ledger, who);
      } else {
        PayWithin(s.ledger, farm2.currency, MiningPool(key.0), MiningPool(pool1.id), moved, ledger', who);
      }
    }
  }

  lemma SameWithin(l: Ledger, who: nat)
    ensures Within(l, l, who)
  {
  }

  lemma DoClaimWithin(cfg: Config, s: State, key: Key, nft: NftId, who: nat, now: nat, s': State, reward: nat,
                      unclaimable: nat)
    requires Stored(s, key) && nft in s.deposits && DoClaim(cfg, s, key, nft, who, now) == Ok((s', reward, unclaimable))
    ensures Within(s.ledger, s'.ledger, who)
    ensures Free(s.ledger, s.farms[key.0].currency, User(who)) + reward ==
            Free(s'.ledger, s.farms[key.0].currency, User(who))
    ensures forall a :: a != s.farms[key.0].currency ==> Free(s'.ledger, a, User(who)) == Free(s.ledger, a, User(who))
    ensures forall a :: Free(s'.ledger, a, MiningPallet) == Free(s.ledger, a, MiningPallet)
  {
    hide LoyaltyMultiplier, UserReward, Supply, Free, Transfer, Within;
    if s.deposits[nft].updatedAt == now {
      SameWithin(s.ledger, who);
    } else {
      var cur, pot := s.farms[key.0].currency, MiningPool(s.pools[key].id);
      PayWithin(s.ledger, cur, pot, User(who), reward, s'.ledger, who);
      TransferMoves(s.ledger, cur, pot, User(who), reward, cur, User(who));
      forall a
        ensures a != cur ==> Free(s'.ledger, a, User(who)) == Free(s.ledger, a, User(who))
        ensures Free(s'.ledger, a, MiningPallet) == Free(s.ledger, a, MiningPallet)
      {
        TransferMoves(s.ledger, cur, pot, User(who), reward, a, User(who));
        TransferMoves(s.ledger, cur, pot, User(who), reward, a, MiningPallet);
      }
    }
  }

  // The calls that move the caller's funds.

  /** Creating a farm moves exactly the total rewards from the owner to the farm's pot. */
  lemma CreateFarmFlow(cfg: Config, s: State, totalRewards: nat, planned: nat, blocksPerPeriod: nat,
                       incentivized: AssetId, currency: AssetId, owner: nat, yieldPerMillion: nat, s': State)
    requires CreateFarm(cfg, s, totalRewards, planned, blocksPerPeriod, incentivized, currency, owner, yieldPerMillion)
             == Ok(s')
    ensures Within(s.ledger, s'.ledger, owner) && s'.poolSeq == s.poolSeq + 1
    ensures Free(s'.ledger, currency, User(owner)) == Free(s.ledger, currency, User(owner)) - totalRewards
    ensures Free(s'.ledger, currency, MiningPool(s'.poolSeq)) ==
            Free(s.ledger, currency, MiningPool(s'.poolSeq)) + totalRewards
  {
    hide Supply, Free, Transfer, Within, Period;
    var pot := MiningPool(s'.poolSeq);
    PayWithin(s.ledger, currency, User(owner), pot, totalRewards, s'.ledger, owner);
    TransferMoves(s.ledger, currency, User(owner), pot, totalRewards, currency, User(owner));
    TransferMoves(s.ledger, currency, User(owner), pot, totalRewards, currency, pot);
  }

  /** A deposit moves exactly its amount of LP shares from the depositor to the pallet. */
  lemma DepositFlow(cfg: Config, s: State, who: nat, farmId: PoolId, pair: AssetPair, amount: nat, s': State)
    requires DepositShares(cfg, s, who, farmId, pair, amount) == Ok(s')
    ensures Within(s.ledger, s'.ledger, who)
    ensures forall a :: Free(s'.ledger, a, User(who)) ==
              Free(s.ledger, a, User(who)) - if a == ShareToken(cfg, s, pair) then amount else 0
    ensures forall a :: Free(s'.ledger, a, MiningPallet) ==
              Free(s.ledger, a, MiningPallet) + if a == ShareToken(cfg, s, pair) then amount else 0
  {
    hide Supply, Free, Transfer, Within, Touch, Period, EncodeId, GlobalShares, NextNftSeq, Mul;
    var key, token := (farmId, AmmOf(pair)), ShareToken(cfg, s, pair);
    var now := Period(s.block, s.farms[farmId].blocksPerPeriod).value;
    var s1 := Touch(s, key, now).value;
    TouchWithin(s, key, now, s1, who);
    EnterPays(s1, key, who, token, amount, now, s');
    hide DepositShares, Enter;
    PayWithin(s1.ledger, token, User(who), MiningPallet, amount, s'.ledger, who);
    WithinTransitive(s.ledger, s1.ledger, s'.ledger, who);
    forall a
      ensures Free(s'.ledger, a, User(who)) == Free(s.ledger, a, User(who)) - if a == token then amount else 0
      ensures Free(s'.ledger, a, MiningPallet) == Free(s.ledger, a, MiningPallet) + if a == token then amount else 0
    {
      TouchSparesUsers(s, key, now, s1, a, User(who));
      TouchSparesUsers(s, key, now, s1, a, MiningPallet);
      TransferMoves(s1.ledger, token, User(who), MiningPallet, amount, a, User(who));
      TransferMoves(s1.ledger, token, User(who), MiningPallet, amount, a, MiningPallet);
    }
  }

  lemma EnterPays(s: State, key: Key, who: nat, token: AssetId, amount: nat, now: nat, s': State)
    requires Stored(s, key) && Enter(s, key, who, token, amount, now) == Ok(s')
    ensures Transfer(s.ledger, token, User(who), MiningPallet, amount) == Some(s'.ledger)
  {
    hide Transfer, Free, EncodeId, GlobalShares, NextNftSeq, Mul;
  }

  lemma LeaveWithin(s: State, key: Key, nft: NftId, unclaimable: nat, s': State, who: nat)
    requires Stored(s, key) && nft in s.deposits && Leave(s, key, nft, unclaimable) == Ok(s')
    ensures Within(s.ledger, s'.ledger, who)
    ensures forall a, w: AccountId :: !w.MiningPool? ==> Free(s'.ledger, a, w) == Free(s.ledger, a, w)
  {
    hide Supply, Free, Transfer, Within, GlobalShares;
    var cur := s.farms[key.0].currency;
    PayWithin(s.ledger, cur, MiningPool(s.pools[key].id), MiningPool(key.0), unclaimable, s'.ledger, who);
    forall a, w: AccountId | !w.MiningPool?
      ensures Free(s'.ledger, a, w) == Free(s.ledger, a, w)
    {
      TransferMoves(s.ledger, cur, MiningPool(s.pools[key].id), MiningPool(key.0), unclaimable, a, w);
    }
  }

  /** What the pool's part of a withdrawal pays the depositor: `reward`, in the reward currency. */
  ghost predicate PaidReward(l: Ledger, l': Ledger, cur: AssetId, who: nat, reward: nat) {
    && Within(l, l', who)
    && (forall a :: Free(l', a, User(who)) == Free(l, a, User(who)) + if a == cur then reward else 0)
    && (forall a :: Free(l', a, MiningPallet) == Free(l, a, MiningPallet))
  }

  lemma ExitFlow(cfg: Config, s: State, key: Key, nft: NftId, who: nat, s': State) returns (reward: nat)
    requires Stored(s, key) && nft in s.deposits && Exit(cfg, s, key, nft, who) == Ok(s')
    ensures PaidReward(s.ledger, s'.ledger, s.farms[key.0].currency, who, reward)
  {
    hide Supply, Free, Transfer, Within, Touch, DoClaim, Leave, Period;
    var now := Period(s.block, s.farms[key.0].blocksPerPeriod).value;
    var s1 := if s.pools[key].canceled then s else Touch(s, key, now).value;
    var (s2, paid, unclaimable) := DoClaim(cfg, s1, key, nft, who, now).value;
    reward := paid;
    if s.pools[key].canceled {
      SameWithin(s.ledger, who);
    } else {
      TouchWithin(s, key, now, s1, who);
      SameCurrency(s, key, now, s1);
    }
    DoClaimWithin(cfg, s1, key, nft, who, now, s2, paid, unclaimable);
    LeaveWithin(s2, key, nft, unclaimable, s', who);
    WithinTransitive(s.ledger, s1.ledger, s2.ledger, who);
    WithinTransitive(s.ledger, s2.ledger, s'.ledger, who);
    forall a
      ensures Free(s1.ledger, a, User(who)) == Free(s.ledger, a, User(who))
      ensures Free(s1.ledger, a, MiningPallet) == Free(s.ledger, a, MiningPallet)
    {
      if !s.pools[key].canceled {
        TouchSparesUsers(s, key, now, s1, a, User(who));
        TouchSparesUsers(s, key, now, s1, a, MiningPallet);
      }
    }
  }

  lemma SameCurrency(s: State, key: Key, now: nat, s': State)
    requires Stored(s, key) && Touch(s, key, now) == Ok(s')
    ensures s'.farms[key.0].currency == s.farms[key.0].currency
  {
    hide Transfer, Free, RewardPerPeriod, AccumulatedRps;
  }

  /** `lp` of `token` went from the pallet to the depositor. */
  ghost predicate SharesBack(l: Ledger, l': Ledger, token: AssetId, who: nat, lp: nat) {
    && Within(l, l', who)
    && (forall a :: Free(l', a, User(who)) == Free(l, a, User(who)) + if a == token then lp else 0)
    && (forall a :: Free(l', a, MiningPallet) == Free(l, a, MiningPallet) - if a == token then lp else 0)
  }

  lemma DepartFlow(cfg: Config, s: State, who: nat, nft: NftId, id: PoolId, shares: nat, stored: bool, s': State)
    requires id in s.meta && Depart(cfg, s, who, nft, id, shares, stored) == Ok(s')
    ensures var amm := AmmOf(s.meta[id].pair);
            SharesBack(s.ledger, s'.ledger, cfg.shareToken(amm), who, if amm in s.amms then shares else 0)
    ensures s'.deposits == s.deposits - {nft} && s'.owners == s.owners - {nft}
  {
    hide Supply, Free, Transfer, Within, MetaAfterExit;
    var amm := AmmOf(s.meta[id].pair);
    var token := cfg.shareToken(amm);
    if amm in s.amms {
      PayWithin(s.ledger, token, MiningPallet, User(who), shares, s'.ledger, who);
      forall a
        ensures Free(s'.ledger, a, User(who)) == Free(s.ledger, a, User(who)) + if a == token then shares else 0
        ensures Free(s'.ledger, a, MiningPallet) == Free(s.ledger, a, MiningPallet) - if a == token then shares else 0
      {
        TransferMoves(s.ledger, token, MiningPallet, User(who), shares, a, User(who));
        TransferMoves(s.ledger, token, MiningPallet, User(who), shares, a, MiningPallet);
      }
    } else {
      SameWithin(s.ledger, who);
    }
  }

  /** A withdrawal returns exactly the deposited LP shares while the AMM exists (nothing once it is gone), pays a
      reward in
      the farm's currency only if the pool is still stored, and takes nothing from anybody else. */
  lemma WithdrawFlow(cfg: Config, s: State, who: nat, nft: NftId, s': State) returns (mid: Ledger, reward: nat)
    requires WithdrawShares(cfg, s, who, nft) == Ok(s')
    ensures nft in s.deposits && nft in s.owners && s.owners[nft] == who
    ensures s'.deposits == s.deposits - {nft} && s'.owners == s.owners - {nft}
    ensures DecodePool(nft).Some? && DecodePool(nft).value in s.meta
    ensures Within(s.ledger, s'.ledger, who)
    ensures var m := s.meta[DecodePool(nft).value];
            var amm := AmmOf(m.pair);
            && (if (m.farm, amm) in s.pools
                then m.farm in s.farms && PaidReward(s.ledger, mid, s.farms[m.farm].currency, who, reward)
                else mid == s.ledger && reward == 0)
            && SharesBack(mid, s'.ledger, cfg.shareToken(amm), who, if amm in s.amms then s.deposits[nft].shares else 0)
  {
    hide Supply, Free, Transfer, Within, Exit, DecodePool, MetaAfterExit, Depart, SharesBack, PaidReward;
    var id := DecodePool(nft).value;
    var key := (s.meta[id].farm, AmmOf(s.meta[id].pair));
    var s1 := s;
    reward := 0;
    if key in s.pools {
      s1 := Exit(cfg, s, key, nft, who).value;
      reward := ExitFlow(cfg, s, key, nft, who, s1);
      ExitSparesOthers(cfg, s, key, nft, who, s1);
    }
    mid := s1.ledger;
    DepartFlow(cfg, s1, who, nft, id, s.deposits[nft].shares, key in s.pools, s');
    hide WithdrawShares;
    Combine(s.ledger, mid, s'.ledger, who, s, key, cfg.shareToken(key.1),
            if key.1 in s.amms then s.deposits[nft].shares else 0, reward);
  }

  /** Leaving a pool touches no other deposit. */
  lemma ExitSparesOthers(cfg: Config, s: State, key: Key, nft: NftId, who: nat, s': State)
    requires Stored(s, key) && nft in s.deposits && Exit(cfg, s, key, nft, who) == Ok(s')
    ensures s'.deposits - {nft} == s.deposits - {nft} && s'.owners == s.owners
  {
    hide Touch, Leave, LoyaltyMultiplier, UserReward, Transfer;
  }

  lemma Combine(l: Ledger, mid: Ledger, l': Ledger, who: nat, s: State, key: Key, token: AssetId, lp: nat, reward: nat)
    requires mid == l || (key.0 in s.farms && PaidReward(l, mid, s.farms[key.0].currency, who, reward))
    requires SharesBack(mid, l', token, who, lp)
    ensures Within(l, l', who)
  {
    hide Within, Free;
    SameWithin(l, who);
    WithinTransitive(l, mid, l', who);
  }

  // Every call.

  function CallerOf(c: Call): nat
    requires !c.Others?
  {
    if c.Create? then c.owner else c.who
  }

  lemma ClaimWithin(cfg: Config, s: State, who: nat, nft: NftId, s': State)
    requires ClaimRewards(cfg, s, who, nft) == Ok(s')
    ensures Within(s.ledger, s'.ledger, who)
  {
    hide Touch, DoClaim, Within, DecodePool, Period, Free;
    var m := s.meta[DecodePool(nft).value];
    var key := (m.farm, AmmOf(m.pair));
    var now := Period(s.block, s.farms[m.farm].blocksPerPeriod).value;
    var s1 := Touch(s, key, now).value;
    var (s2, reward, unclaimable) := DoClaim(cfg, s1, key, nft, who, now).value;
    TouchWithin(s, key, now, s1, who);
    DoClaimWithin(cfg, s1, key, nft, who, now, s2, reward, unclaimable);
    WithinTransitive(s.ledger, s1.ledger, s2.ledger, who);
  }

  /** The owner's calls on a pool or a farm. */
  lemma OwnerWithin(cfg: Config, s: State, c: Call, s': State)
    requires c.Destroy? || c.Reclaim? || c.AddPool? || c.SetMultiplier? || c.Cancel? || c.Resume? || c.RemovePool?
    requires Dispatch(cfg, s, c) == Ok(s')
    ensures Within(s.ledger, s'.ledger, c.who)
  {
    hide Touch, Within, Period, Free, Transfer, MaybeUpdateFarm, GlobalShares, NextPoolId;
    SameWithin(s.ledger, c.who);
    match c
    case Destroy(_, _) =>
    case Reclaim(w, f) =>
      PayWithin(s.ledger, s.farms[f].currency, MiningPool(f), User(w),
                Free(s.ledger, s.farms[f].currency, MiningPool(f)), s'.ledger, w);
    case AddPool(_, _, _, _, _) =>
    case SetMultiplier(w, f, p, _) =>
      var now := Period(s.block, s.farms[f].blocksPerPeriod).value;
      TouchWithin(s, (f, AmmOf(p)), now, Touch(s, (f, AmmOf(p)), now).value, w);
    case Cancel(w, f, p) =>
      var now := Period(s.block, s.farms[f].blocksPerPeriod).value;
      TouchWithin(s, (f, AmmOf(p)), now, Touch(s, (f, AmmOf(p)), now).value, w);
    case Resume(_, _, _, _) =>
    case RemovePool(w, f, p) =>
      var cur, pot := s.farms[f].currency, MiningPool(s.pools[(f, AmmOf(p))].id);
      PayWithin(s.ledger, cur, pot, MiningPool(f), Free(s.ledger, cur, pot), s'.ledger, w);
  }

  /** Every call of the pallet, failed or not, conserves every asset and leaves every account alone that is neither the
      caller's nor the pallet's. */
  lemma StepConserves(cfg: Config, s: State, c: Call)
    requires !c.Others?
    ensures Within(s.ledger, Step(cfg, s, c).ledger, CallerOf(c))
  {
    hide Within, CreateFarm, DepositShares, ClaimRewards, WithdrawShares, DestroyFarm, WithdrawUndistributed,
         AddLiquidityPool, UpdateLiquidityPool, CancelLiquidityPool, ResumeLiquidityPool, RemoveLiquidityPool, Free,
         DecodePool;
    SameWithin(s.ledger, CallerOf(c));
    var r := Dispatch(cfg, s, c);
    if r.Ok? {
      var s' := r.value;
      match c
      case Create(t, p, b, i, cur, o, y) => CreateFarmFlow(cfg, s, t, p, b, i, cur, o, y, s');
      case Join(w, f, p, a) => DepositFlow(cfg, s, w, f, p, a, s');
      case Claim(w, n) => ClaimWithin(cfg, s, w, n, s');
      case Quit(w, n) => var _, _ := WithdrawFlow(cfg, s, w, n, s');
      case _ => OwnerWithin(cfg, s, c, s');
    }
  }
}
