/** The pallet account holds the LP shares of all live deposits, so leaving never lacks shares to return; and
    the withdrawals a re-added pair makes impossible. */
module MiningCustody {
  import opened Basics
  import opened Sums
  import opened Ledgers
  import opened NftIds
  import opened Mining
  import opened MiningPools
  import opened MiningInvariant
  import opened MiningAccrual
  import opened MiningSteps
  import opened MiningExits
  import opened MiningCalls
  import opened MiningRuns
  import opened MiningClaims
  import opened MiningForecast
  import opened MiningGrowth

  /** The share token a deposit was made in, by its pool's metadata. */
  function TokenOf(cfg: Config, meta: map<PoolId, Meta>, n: NftId): Option<AssetId> {
    match DecodePool(n)
    case Some(p) => if p in meta then Some(cfg.shareToken(AmmOf(meta[p].pair))) else None
    case None => None
  }

  /** The shares of the deposits made in token `t`. */
  ghost function Held(cfg: Config, deposits: map<NftId, Stake>, meta: map<PoolId, Meta>, t: AssetId): map<NftId, int> {
    map n | n in deposits && TokenOf(cfg, meta, n) == Some(t) :: deposits[n].shares
  }

  ghost predicate Covered(cfg: Config, s: State, t: AssetId) {
    Sum(Held(cfg, s.deposits, s.meta, t)) <= Free(s.ledger, t, MiningPallet)
  }

  ghost predicate Custody(cfg: Config, s: State) {
    forall t {:trigger Covered(cfg, s, t)} :: Covered(cfg, s, t)
  }

  /** Nothing about the pallet's own account or the deposits' shares and tokens changed for the worse. */
  ghost predicate CustodyKept(cfg: Config, s: State, s': State) {
    && s'.deposits.Keys == s.deposits.Keys
    && (forall n :: n in s.deposits ==> s'.deposits[n].shares == s.deposits[n].shares)
    && (forall n {:trigger TokenOf(cfg, s'.meta, n)} :: n in s.deposits ==>
          TokenOf(cfg, s'.meta, n) == TokenOf(cfg, s.meta, n))
    && (forall t :: Free(s.ledger, t, MiningPallet) <= Free(s'.ledger, t, MiningPallet))
  }

  lemma CustodyFrame(cfg: Config, s: State, s': State)
    requires Custody(cfg, s) && CustodyKept(cfg, s, s')
    ensures Custody(cfg, s')
  {
    hide TokenOf;
    forall t
      ensures Covered(cfg, s', t)
    {
      assert Covered(cfg, s, t);
      assert Held(cfg, s'.deposits, s'.meta, t) == Held(cfg, s.deposits, s.meta, t);
    }
  }

  lemma TouchCustody(cfg: Config, s: State, key: Key, now: nat, s': State)
    requires Inv(cfg, s) && Stored(s, key) && s.farms[key.0].blocksPerPeriod > 0 && now == Now(s, key.0)
    requires Touch(s, key, now) == Ok(s')
    ensures CustodyKept(cfg, s, s')
    ensures forall t :: Free(s.ledger, t, MiningPallet) == Free(s'.ledger, t, MiningPallet)
  {
    hide Inv, Touch, TokenOf, Elapsed;
    TouchKeeps(cfg, s, key, now, s');
    forall t
      ensures Free(s.ledger, t, MiningPallet) == Free(s'.ledger, t, MiningPallet)
    {
      TouchSparesUsers(s, key, now, s', t, MiningPallet);
    }
  }

  lemma DoClaimCustody(cfg: Config, s: State, key: Key, nft: NftId, who: nat, now: nat, s': State, reward: nat,
                       unclaimable: nat)
    requires Stored(s, key) && nft in s.deposits
    requires DoClaim(cfg, s, key, nft, who, now) == Ok((s', reward, unclaimable))
    ensures CustodyKept(cfg, s, s')
    ensures forall t :: Free(s.ledger, t, MiningPallet) == Free(s'.ledger, t, MiningPallet)
  {
    hide LoyaltyMultiplier, UserReward, TokenOf;
  }

  /** Metadata of pools with live deposits stays. */
  lemma LiveMeta(cfg: Config, s: State, n: NftId)
    requires StructureOK(s) && n in s.deposits
    ensures DecodePool(n).Some? && 1 <= DecodePool(n).value <= s.poolSeq
    ensures DecodePool(n).value in s.meta && s.meta[DecodePool(n).value].count > 0
  {
    hide DecodePool;
    DepositLinked(s, n);
  }

  lemma AddPoolCustody(cfg: Config, s: State, c: Call, s': State)
    requires Inv(cfg, s) && Dispatch(cfg, s, c) == Ok(s') && c.AddPool?
    ensures CustodyKept(cfg, s, s')
  {
    hide FarmsOK, PoolsOK, StructureOK, DecodePool, MaybeUpdateFarm, Period;
    forall n | n in s.deposits
      ensures TokenOf(cfg, s'.meta, n) == TokenOf(cfg, s.meta, n)
    {
      LiveMeta(cfg, s, n);
    }
  }

  lemma RemovePoolCustody(cfg: Config, s: State, c: Call, s': State)
    requires Inv(cfg, s) && Dispatch(cfg, s, c) == Ok(s') && c.RemovePool?
    ensures CustodyKept(cfg, s, s')
  {
    hide FarmsOK, PoolsOK, StructureOK, DecodePool;
    forall n | n in s.deposits
      ensures TokenOf(cfg, s'.meta, n) == TokenOf(cfg, s.meta, n)
    {
      LiveMeta(cfg, s, n);
    }
  }

  lemma FarmCustody(cfg: Config, s: State, c: Call, s': State)
    requires Inv(cfg, s) && Dispatch(cfg, s, c) == Ok(s') && Allowed(s, c)
    requires c.Create? || c.Destroy? || c.Reclaim? || c.Others?
    ensures CustodyKept(cfg, s, s')
  {
    hide Inv, TokenOf, Period;
  }

  lemma ResumeCustody(cfg: Config, s: State, c: Call, s': State)
    requires Inv(cfg, s) && Dispatch(cfg, s, c) == Ok(s') && c.Resume?
    ensures CustodyKept(cfg, s, s')
  {
    hide Inv, TokenOf, Period, MaybeUpdateFarm, FixedMul, DepositsOf;
  }

  lemma RestakeCustody(cfg: Config, s: State, c: Call, s': State)
    requires Inv(cfg, s) && Dispatch(cfg, s, c) == Ok(s')
    requires c.SetMultiplier? || c.Cancel?
    ensures CustodyKept(cfg, s, s')
  {
    hide Inv, Touch, FixedMul, Elapsed, TokenOf, DepositsOf;
    var key := (c.farm, AmmOf(c.pair));
    Clocked(cfg, s, c.farm);
    TouchCustody(cfg, s, key, Now(s, c.farm), Touch(s, key, Now(s, c.farm)).value);
  }

  lemma ClaimCustody(cfg: Config, s: State, c: Call, s': State)
    requires Inv(cfg, s) && Dispatch(cfg, s, c) == Ok(s') && c.Claim?
    ensures CustodyKept(cfg, s, s')
  {
    hide FarmsOK, PoolsOK, StructureOK, Elapsed, Touch, DecodePool, DoClaim, TokenOf;
    DepositLinked(s, c.nft);
    var key := KeyOf(s.meta[DecodePool(c.nft).value]);
    Clocked(cfg, s, key.0);
    var now := Now(s, key.0);
    var s1 := Touch(s, key, now).value;
    TouchKeeps(cfg, s, key, now, s1);
    TouchCustody(cfg, s, key, now, s1);
    var (_, reward, unclaimable) := DoClaim(cfg, s1, key, c.nft, c.who, now).value;
    DoClaimCustody(cfg, s1, key, c.nft, c.who, now, s', reward, unclaimable);
  }

  lemma TokenIgnoresCount(cfg: Config, meta: map<PoolId, Meta>, id: PoolId, count: nat, n: NftId)
    requires id in meta
    ensures TokenOf(cfg, meta[id := meta[id].(count := count)], n) == TokenOf(cfg, meta, n)
  {
    hide DecodePool;
  }

  lemma HeldOnEntry(cfg: Config, deposits: map<NftId, Stake>, meta: map<PoolId, Meta>, id: PoolId, count: nat,
                    nft: NftId, d: Stake, token: AssetId, t: AssetId)
    requires id in meta && nft !in deposits && TokenOf(cfg, meta, nft) == Some(token)
    ensures Sum(Held(cfg, deposits[nft := d], meta[id := meta[id].(count := count)], t)) ==
            Sum(Held(cfg, deposits, meta, t)) + if t == token then d.shares else 0
  {
    hide TokenOf;
    var meta' := meta[id := meta[id].(count := count)];
    forall n
      ensures TokenOf(cfg, meta', n) == TokenOf(cfg, meta, n)
    {
      TokenIgnoresCount(cfg, meta, id, count, n);
    }
    var held, held' := Held(cfg, deposits, meta, t), Held(cfg, deposits[nft := d], meta', t);
    if t == token {
      assert held' == held[nft := d.shares];
      SumInsert(held, nft, d.shares);
    } else {
      assert held' == held;
    }
  }

  lemma EnterCustody(cfg: Config, s: State, key: Key, who: nat, token: AssetId, amount: nat, now: nat, s': State)
    requires StructureOK(s) && Custody(cfg, s) && Stored(s, key) && !s.pools[key].canceled
    requires Enter(s, key, who, token, amount, now) == Ok(s')
    requires token == cfg.shareToken(key.1)
    ensures Custody(cfg, s')
  {
    hide StructureOK, Enter, EncodeId, DecodePool, FixedMul, Held;
    EnterShape(s, key, who, token, amount, now, s');
    var id := s.pools[key].id;
    var nft := EncodeId(id, s.nftSeq + 1);
    FreshNft(s, key, nft);
    StoredKey(s, key);
    forall t
      ensures Covered(cfg, s', t)
    {
      assert Covered(cfg, s, t);
      HeldOnEntry(cfg, s.deposits, s.meta, id, s.meta[id].count + 1, nft, s'.deposits[nft], token, t);
    }
  }

  lemma JoinCustody(cfg: Config, s: State, c: Call, s': State)
    requires Inv(cfg, s) && Custody(cfg, s) && Dispatch(cfg, s, c) == Ok(s') && c.Join?
    requires AmmOf(c.pair) in s.amms
    ensures Custody(cfg, s')
  {
    hide Inv, Elapsed, Touch, Period, Enter, Custody, CustodyKept;
    var key := (c.farm, AmmOf(c.pair));
    Clocked(cfg, s, c.farm);
    var now := Now(s, c.farm);
    var s1 := Touch(s, key, now).value;
    TouchKeeps(cfg, s, key, now, s1);
    TouchCustody(cfg, s, key, now, s1);
    CustodyFrame(cfg, s, s1);
    InvStructure(cfg, s1);
    EnterCustody(cfg, s1, key, c.who, ShareToken(cfg, s, c.pair), c.amount, now, s');
  }

  lemma LeaveCustody(cfg: Config, s: State, key: Key, nft: NftId, unclaimable: nat, s': State)
    requires Stored(s, key) && nft in s.deposits && Leave(s, key, nft, unclaimable) == Ok(s')
    ensures CustodyKept(cfg, s, s') && s'.owners == s.owners && s'.meta == s.meta
    ensures forall t :: Free(s.ledger, t, MiningPallet) == Free(s'.ledger, t, MiningPallet)
  {
    hide TokenOf, FixedMul;
  }

  /** The pool's part of a withdrawal leaves custody alone. */
  lemma ExitCustody(cfg: Config, s: State, key: Key, nft: NftId, who: nat, s': State)
    requires Lawful(cfg) && Inv(cfg, s) && Stored(s, key) && nft in s.deposits
    requires DecodePool(nft) == Some(s.pools[key].id) && Exit(cfg, s, key, nft, who) == Ok(s')
    ensures CustodyKept(cfg, s, s') && s'.owners == s.owners && s'.meta == s.meta
    ensures forall t :: Free(s.ledger, t, MiningPallet) == Free(s'.ledger, t, MiningPallet)
  {
    hide Inv, Elapsed, Touch, Period, DecodePool, DoClaim, TokenOf, Leave;
    Clocked(cfg, s, key.0);
    var now := Now(s, key.0);
    var s1 := if s.pools[key].canceled then s else Touch(s, key, now).value;
    if !s.pools[key].canceled {
      TouchKeeps(cfg, s, key, now, s1);
      TouchCustody(cfg, s, key, now, s1);
    }
    var (s2, reward, unclaimable) := DoClaim(cfg, s1, key, nft, who, now).value;
    DoClaimKeeps(cfg, s1, key, nft, who, now, s2, reward, unclaimable);
    DoClaimCustody(cfg, s1, key, nft, who, now, s2, reward, unclaimable);
    LeaveCustody(cfg, s2, key, nft, unclaimable, s');
  }

  /** Returning the shares of `nft` and dropping it, whatever happens to the metadata of its pool. */
  lemma ReturnCustody(cfg: Config, s: State, nft: NftId, id: PoolId, stored: bool, t0: AssetId, s': State)
    requires StructureOK(s) && Custody(cfg, s) && nft in s.deposits
    requires DecodePool(nft) == Some(id) && id in s.meta && s.meta[id].count > 0
    requires t0 == cfg.shareToken(AmmOf(s.meta[id].pair))
    requires s'.deposits == s.deposits - {nft} && s'.meta == MetaAfterExit(s.meta, id, stored)
    requires stored <==> KeyOf(s.meta[id]) in s.pools
    requires forall t :: Free(s'.ledger, t, MiningPallet) >=
                         Free(s.ledger, t, MiningPallet) - if t == t0 then s.deposits[nft].shares else 0
    ensures Custody(cfg, s')
  {
    hide DecodePool, NumbersOK, LinksOK;
    NftsAfterExit(s.deposits.Keys, s.owners.Keys, s.meta, s.nftSeq, s.pools.Keys, nft, id);
    forall n | n in s'.deposits
      ensures TokenOf(cfg, s'.meta, n) == TokenOf(cfg, s.meta, n)
    {
      assert NftOK(n, s'.meta.Keys, s.nftSeq);
    }
    forall t
      ensures Covered(cfg, s', t)
    {
      assert Covered(cfg, s, t);
      var held, held' := Held(cfg, s.deposits, s.meta, t), Held(cfg, s'.deposits, s'.meta, t);
      if t == t0 {
        assert held' == held - {nft};
        SumRemove(held, nft);
      } else {
        assert held' == held;
      }
    }
  }

  lemma LpPaid(l: Ledger, t0: AssetId, who: nat, shares: nat, l': Ledger)
    requires l' == l || Transfer(l, t0, MiningPallet, User(who), shares) == Some(l')
    ensures forall t :: Free(l', t, MiningPallet) >= Free(l, t, MiningPallet) - if t == t0 then shares else 0
  {
  }

  lemma QuitCustody(cfg: Config, s: State, c: Call, s': State)
    requires Lawful(cfg) && Inv(cfg, s) && Custody(cfg, s) && Dispatch(cfg, s, c) == Ok(s') && c.Quit?
    ensures Custody(cfg, s')
  {
    hide FarmsOK, PoolsOK, StructureOK, Exit, DecodePool, Custody, TokenOf, MetaAfterExit;
    DepositLinked(s, c.nft);
    var id := DecodePool(c.nft).value;
    var key := KeyOf(s.meta[id]);
    if key in s.pools {
      ExitCustody(cfg, s, key, c.nft, c.who, Exit(cfg, s, key, c.nft, c.who).value);
    }
    var t0 := cfg.shareToken(AmmOf(s.meta[id].pair));
    LpPaid(if key in s.pools then Exit(cfg, s, key, c.nft, c.who).value.ledger else s.ledger, t0, c.who,
           s.deposits[c.nft].shares, s'.ledger);
    var bare := s.(deposits := s.deposits - {c.nft}, meta := s'.meta, ledger := s'.ledger);
    ReturnCustody(cfg, s, c.nft, id, key in s.pools, t0, bare);
    CustodyFrame(cfg, bare, s');
  }

  // Runs whose deposits are made while their AMM exists.

  ghost predicate Guarded(s: State, c: Call) {
    Allowed(s, c) && (c.Join? ==> AmmOf(c.pair) in s.amms)
  }

  ghost predicate GuardedRun(cfg: Config, s: State, calls: seq<Call>)
    decreases |calls|
  {
    calls != [] ==> Guarded(s, calls[0]) && GuardedRun(cfg, Step(cfg, s, calls[0]), calls[1..])
  }

  lemma StepKeepsCustody(cfg: Config, s: State, c: Call)
    requires Lawful(cfg) && Inv(cfg, s) && Custody(cfg, s) && Guarded(s, c)
    ensures Custody(cfg, Step(cfg, s, c))
  {
    hide Inv, Dispatch, Custody, CustodyKept, Lawful, Allowed;
    var r := Dispatch(cfg, s, c);
    if r.Ok? {
      if c.Join? { JoinCustody(cfg, s, c, r.value); }
      else if c.Quit? { QuitCustody(cfg, s, c, r.value); }
      else {
        if c.Claim? { ClaimCustody(cfg, s, c, r.value); }
        else if c.SetMultiplier? || c.Cancel? { RestakeCustody(cfg, s, c, r.value); }
        else if c.AddPool? { AddPoolCustody(cfg, s, c, r.value); }
        else if c.RemovePool? { RemovePoolCustody(cfg, s, c, r.value); }
        else if c.Resume? { ResumeCustody(cfg, s, c, r.value); }
        else { FarmCustody(cfg, s, c, r.value); }
        CustodyFrame(cfg, s, r.value);
      }
    }
  }

  lemma {:induction false} RunKeepsCustody(cfg: Config, s: State, calls: seq<Call>)
    requires Lawful(cfg) && Inv(cfg, s) && Custody(cfg, s) && GuardedRun(cfg, s, calls)
    ensures Inv(cfg, Run(cfg, s, calls)) && Custody(cfg, Run(cfg, s, calls))
    decreases |calls|
  {
    hide Inv, Step, Custody, Lawful, Allowed;
    if calls != [] {
      StepKeepsInv(cfg, s, calls[0]);
      StepKeepsCustody(cfg, s, calls[0]);
      RunKeepsCustody(cfg, Step(cfg, s, calls[0]), calls[1..]);
    }
  }

  lemma InitialCustody(cfg: Config, ledger: Ledger)
    ensures Custody(cfg, Initial(ledger))
  {
    forall t
      ensures Covered(cfg, Initial(ledger), t)
    {
      assert Held(cfg, map[], map[], t) == map[];
    }
  }

  ghost predicate GuardedReaches(cfg: Config, ledger: Ledger, calls: seq<Call>, s: State) {
    GuardedRun(cfg, Initial(ledger), calls) && Run(cfg, Initial(ledger), calls) == s
  }

  // Withdrawals.

  /** The conditions of the pool's part of a withdrawal, in numbers before the call. */
  predicate ExitPayable(cfg: Config, s: State, key: Key, nft: NftId, now: nat)
    requires Ordered(s, key, now) && nft in s.deposits
  {
    && Accrues(s, key, now)
    && (s.deposits[nft].updatedAt == now || Payable(cfg, AccruedPool(s, key, now), s.deposits[nft], now))
  }

  lemma LeaveSucceeds(cfg: Config, s: State, key: Key, nft: NftId, unclaimable: nat)
    requires Lawful(cfg) && Inv(cfg, s) && Stored(s, key) && nft in s.deposits
    requires s.farms[key.0].blocksPerPeriod > 0 && DecodePool(nft) == Some(s.pools[key].id)
    requires unclaimable <= OwedFn(s.pools[key].accRpvs)(s.deposits[nft])
    ensures Leave(s, key, nft, unclaimable).Ok?
  {
    hide Inv, Elapsed, DecodePool, OwedFn, FixedMul;
    OwedCovered(cfg, s, key, nft);
    StakeWithinTotal(cfg, s, key);
    PoolBounds(cfg, s, key);
  }

  lemma ExitSucceedsIff(cfg: Config, s: State, key: Key, nft: NftId, who: nat, now: nat)
    requires Lawful(cfg) && Inv(cfg, s) && Stored(s, key) && nft in s.deposits
    requires DecodePool(nft) == Some(s.pools[key].id)
    requires Period(s.block, s.farms[key.0].blocksPerPeriod) == Ok(now)
    ensures Ordered(s, key, now)
    ensures Exit(cfg, s, key, nft, who).Ok? <==> ExitPayable(cfg, s, key, nft, now)
    ensures Exit(cfg, s, key, nft, who).Err? ==> FarmShort(Exit(cfg, s, key, nft, who).error)
  {
    hide Inv, Elapsed, DecodePool, Touch, DoClaim, Leave, Payable, OwedFn;
    Clocked(cfg, s, key.0);
    TouchForecast(cfg, s, key, nft, now);
    CanceledForecast(s, key, now);
    var r := if s.pools[key].canceled then Ok(s) else Touch(s, key, now);
    if r.Err? {
      TouchErrors(cfg, s, key, now);
    } else {
      var s1 := r.value;
      if !s.pools[key].canceled { TouchKeeps(cfg, s, key, now, s1); }
      DoClaimSucceeds(cfg, s1, key, nft, who, now);
      if DoClaim(cfg, s1, key, nft, who, now).Ok? {
        var (s2, reward, unclaimable) := DoClaim(cfg, s1, key, nft, who, now).value;
        DoClaimKeeps(cfg, s1, key, nft, who, now, s2, reward, unclaimable);
        LeaveSucceeds(cfg, s2, key, nft, unclaimable);
      }
    }
  }

  lemma CanceledForecast(s: State, key: Key, now: nat)
    requires Ordered(s, key, now)
    ensures s.pools[key].canceled ==> Accrues(s, key, now) && AccruedPool(s, key, now) == s.pools[key]
  {
    hide Reward, Draw, FarmFits, DrawFits, FarmCovers, PotOfFarm;
  }

  lemma SharesHeld(cfg: Config, s: State, nft: NftId, t: AssetId)
    requires Custody(cfg, s) && nft in s.deposits && TokenOf(cfg, s.meta, nft) == Some(t)
    ensures s.deposits[nft].shares <= Free(s.ledger, t, MiningPallet)
  {
    hide TokenOf;
    assert Covered(cfg, s, t);
    SumAtLeast(Held(cfg, s.deposits, s.meta, t), nft);
  }

  /** When a deposit can leave: from a removed pool always; otherwise exactly when its pool accrues (or is
      canceled) and its earnings are payable. No withdrawal fails for missing rewards in the pool, missing LP
      shares, or an underflow in the pool's or farm's totals. */
  lemma WithdrawSucceedsIff(cfg: Config, ledger: Ledger, calls: seq<Call>, s: State, who: nat, nft: NftId)
    requires Lawful(cfg) && GuardedReaches(cfg, ledger, calls, s)
    requires nft in s.deposits && nft in s.owners && s.owners[nft] == who
    ensures DecodePool(nft).Some? && DecodePool(nft).value in s.meta
    ensures var key := KeyOf(s.meta[DecodePool(nft).value]);
            var r := WithdrawShares(cfg, s, who, nft);
            && (key !in s.pools ==> r.Ok?)
            && (key in s.pools ==>
                  && Stored(s, key)
                  && var now := Period(s.block, s.farms[key.0].blocksPerPeriod);
                     && now.Ok? && Ordered(s, key, now.value)
                     && (r.Ok? <==> ExitPayable(cfg, s, key, nft, now.value)))
            && (r.Err? ==> FarmShort(r.error))
  {
    hide FarmsOK, PoolsOK, StructureOK, Exit, DecodePool, Run, GuardedRun, Initial, Custody, ExitPayable, Lawful,
         Period, MetaAfterExit, CustodyKept, FarmShort;
    InitialInv(cfg, ledger);
    InitialCustody(cfg, ledger);
    RunKeepsCustody(cfg, Initial(ledger), calls);
    DepositLinked(s, nft);
    var m := s.meta[DecodePool(nft).value];
    var key := KeyOf(m);
    SharesHeld(cfg, s, nft, cfg.shareToken(AmmOf(m.pair)));
    if key in s.pools {
      Clocked(cfg, s, key.0);
      ExitSucceedsIff(cfg, s, key, nft, who, Now(s, key.0));
      if Exit(cfg, s, key, nft, who).Ok? {
        ExitCustody(cfg, s, key, nft, who, Exit(cfg, s, key, nft, who).value);
      }
    }
  }

  /** A pool that counts fewer shares than a deposit has lets it go in no case. */
  lemma SmallPoolRefusesExit(cfg: Config, s: State, key: Key, nft: NftId, who: nat)
    requires Stored(s, key) && nft in s.deposits && s.pools[key].totalShares < s.deposits[nft].shares
    ensures Exit(cfg, s, key, nft, who).Err?
  {
    hide LoyaltyMultiplier, UserReward, FixedMul, Touch, Free, Transfer;
    var now := Period(s.block, s.farms[key.0].blocksPerPeriod);
    if now.Ok? {
      var r := if s.pools[key].canceled then Ok(s) else Touch(s, key, now.value);
      if r.Ok? && !s.pools[key].canceled {
        TouchKeepsShares(s, key, now.value, r.value);
      }
    }
  }

  lemma TouchKeepsShares(s: State, key: Key, now: nat, s': State)
    requires Stored(s, key) && Touch(s, key, now) == Ok(s')
    ensures s'.pools[key].totalShares == s.pools[key].totalShares && s'.deposits == s.deposits
  {
    hide MaybeUpdateFarm, AccumulatedRps, Transfer, Free;
  }

  /** Nobody can withdraw a deposit while the pool stored under its pair counts fewer shares than the deposit has, be it
      its own pool or one added later: until others deposit enough there, or that pool is removed. */
  lemma StuckWhileSmaller(cfg: Config, s: State, nft: NftId, who: nat)
    requires nft in s.deposits && DecodePool(nft).Some? && DecodePool(nft).value in s.meta
    requires var key := KeyOf(s.meta[DecodePool(nft).value]);
             Stored(s, key) && s.pools[key].totalShares < s.deposits[nft].shares
    ensures WithdrawShares(cfg, s, who, nft).Err?
  {
    hide DecodePool, Exit;
    SmallPoolRefusesExit(cfg, s, KeyOf(s.meta[DecodePool(nft).value]), nft, who);
  }

  /** Why a pair must not be added again over deposits of its removed pool: the stale deposits meet a pool that
      does not count their shares, so none of them can be withdrawn, then and until the new pool is removed or others
      have deposited as many shares in it (`StuckWhileSmaller`). */
  lemma StaleDepositStuck(cfg: Config, s: State, owner: nat, farm: PoolId, pair: AssetPair, multiplier: nat,
                          curve: Option<Curve>, s': State, nft: NftId, who: nat)
    requires Inv(cfg, s) && AddLiquidityPool(s, owner, farm, pair, multiplier, curve) == Ok(s')
    requires nft in s.deposits && s.deposits[nft].shares > 0
    requires DecodePool(nft).Some? && DecodePool(nft).value in s.meta
    requires KeyOf(s.meta[DecodePool(nft).value]) == (farm, AmmOf(pair))
    ensures WithdrawShares(cfg, s', who, nft).Err?
    ensures nft in s.owners && s'.owners == s.owners
  {
    hide FarmsOK, PoolsOK, DecodePool, MaybeUpdateFarm, StructureOK, Exit, Period;
    LiveMeta(cfg, s, nft);
    DepositLinked(s, nft);
    StuckWhileSmaller(cfg, s', nft, who);
  }
}
