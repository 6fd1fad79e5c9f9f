/** Accumulators never fall and ids are never reused, over whole runs. */
module MiningGrowth {
  import opened Basics
  import opened Ledgers
  import opened NftIds
  import opened Mining
  import opened MiningInvariant
  import opened MiningAccrual
  import opened MiningSteps
  import opened MiningCalls
  import opened MiningRuns

  predicate FarmGrew(s: State, s': State, f: PoolId)
    requires f in s'.farms
  {
    f > s.poolSeq || (f in s.farms && s.farms[f].accRpz <= s'.farms[f].accRpz)
  }

  predicate PoolGrew(s: State, s': State, k: Key)
    requires k in s'.pools
  {
    || s'.pools[k].id > s.poolSeq
    || (&& k in s.pools && s.pools[k].id == s'.pools[k].id
        && s.pools[k].accRpvs <= s'.pools[k].accRpvs && s.pools[k].accRpz <= s'.pools[k].accRpz)
  }

  /** A farm of `s'` is new or was already there with an accumulator no larger; so is a pool under its id. */
  ghost predicate Evolves(s: State, s': State) {
    && s.poolSeq <= s'.poolSeq && s.nftSeq <= s'.nftSeq
    && (forall f {:trigger FarmGrew(s, s', f)} :: f in s'.farms ==> FarmGrew(s, s', f))
    && (forall k {:trigger PoolGrew(s, s', k)} :: k in s'.pools ==> PoolGrew(s, s', k))
  }

  lemma EvolvesTransitive(s: State, t: State, u: State)
    requires Evolves(s, t) && Evolves(t, u)
    ensures Evolves(s, u)
  {
    forall f | f in u.farms
      ensures FarmGrew(s, u, f)
    {
      assert FarmGrew(t, u, f);
      assert f in t.farms ==> FarmGrew(s, t, f);
    }
    forall k | k in u.pools
      ensures PoolGrew(s, u, k)
    {
      assert PoolGrew(t, u, k);
      assert k in t.pools ==> PoolGrew(s, t, k);
    }
  }

  lemma TouchEvolves(cfg: Config, s: State, key: Key, now: nat, s': State)
    requires Inv(cfg, s) && Stored(s, key) && s.farms[key.0].blocksPerPeriod > 0 && now == Now(s, key.0)
    requires Touch(s, key, now) == Ok(s')
    ensures Evolves(s, s')
  {
    hide Touch, Inv, Elapsed, PacingOK;
    var u := TouchAccrues(cfg, s, key, now, s');
  }

  lemma TouchFarmEvolves(cfg: Config, s: State, f: PoolId, now: nat, s': State)
    requires Inv(cfg, s) && f in s.farms && f in s.audit && s.farms[f].blocksPerPeriod > 0 && now == Now(s, f)
    requires TouchFarm(s, f, now) == Ok(s')
    ensures Evolves(s, s')
  {
    hide MaybeUpdateFarm, PoolsOK, StructureOK, Elapsed, PacingOK, FarmTotalsOK;
    assert FarmInv(s, f);
    var (farm', reward) := MaybeUpdateFarm(s.farms[f], f, s.ledger, now).value;
    FarmAccrualPaced(s.farms[f], f, s.ledger, now, farm', reward, s.audit[f]);
  }

  lemma RestakeEvolves(s: State, key: Key, total: nat, pool: Pool)
    requires Stored(s, key) && pool.id == s.pools[key].id && pool.accRpvs == s.pools[key].accRpvs
    requires s.pools[key].accRpz <= pool.accRpz
    ensures Evolves(s, Restaked(s, key, total, pool))
  {
    hide DepositsOf;
  }

  lemma OwnerCallEvolves(cfg: Config, s: State, c: Call, s': State)
    requires Inv(cfg, s) && Dispatch(cfg, s, c) == Ok(s')
    requires c.SetMultiplier? || c.Cancel? || c.Resume?
    ensures Evolves(s, s')
  {
    hide Inv, Elapsed, Period, Touch, TouchFarm, Restaked, FixedMul, Evolves;
    var key := (c.farm, AmmOf(c.pair));
    Clocked(cfg, s, c.farm);
    var now := Now(s, c.farm);
    match c
    case SetMultiplier(_, _, _, m) =>
      var s1 := Touch(s, key, now).value;
      TouchKeeps(cfg, s, key, now, s1);
      TouchEvolves(cfg, s, key, now, s1);
      var pool := s1.pools[key].(stake := FixedMul(m, s1.pools[key].totalValued), multiplier := m);
      RestakeEvolves(s1, key, s1.farms[c.farm].totalSharesZ - s1.pools[key].stake + pool.stake, pool);
      EvolvesTransitive(s, s1, s');
    case Cancel(_, _, _) =>
      var s1 := Touch(s, key, now).value;
      TouchKeeps(cfg, s, key, now, s1);
      TouchEvolves(cfg, s, key, now, s1);
      var pool := s1.pools[key].(stake := 0, multiplier := 0, canceled := true);
      RestakeEvolves(s1, key, s1.farms[c.farm].totalSharesZ - s1.pools[key].stake, pool);
      EvolvesTransitive(s, s1, s');
    case Resume(_, _, _, m) =>
      var s1 := TouchFarm(s, c.farm, now).value;
      TouchFarmKeeps(cfg, s, c.farm, now, s1);
      TouchFarmEvolves(cfg, s, c.farm, now, s1);
      PoolBounds(cfg, s1, key);
      var pool := s1.pools[key].(accRpz := s1.farms[c.farm].accRpz, updatedAt := now,
                                 stake := FixedMul(m, s1.pools[key].totalValued), canceled := false, multiplier := m);
      RestakeEvolves(s1, key, s1.farms[c.farm].totalSharesZ + pool.stake, pool);
      EvolvesTransitive(s, s1, s');
  }

  lemma PoolCallEvolves(cfg: Config, s: State, c: Call, s': State)
    requires Inv(cfg, s) && Dispatch(cfg, s, c) == Ok(s')
    requires c.AddPool? || c.RemovePool? || c.Create? || c.Destroy? || c.Reclaim? || c.Others?
    ensures Evolves(s, s')
  {
    hide Inv, Elapsed, TouchFarm, Evolves;
    if c.AddPool? {
      Clocked(cfg, s, c.farm);
      var s1 := TouchFarm(s, c.farm, Now(s, c.farm)).value;
      TouchFarmKeeps(cfg, s, c.farm, Now(s, c.farm), s1);
      TouchFarmEvolves(cfg, s, c.farm, Now(s, c.farm), s1);
      AddEvolves(s1, (c.farm, AmmOf(c.pair)), c.pair, NewPool(s.poolSeq + 1, Now(s, c.farm), c.curve, c.multiplier));
      EvolvesTransitive(s, s1, s');
    } else {
      PlainEvolves(s, s');
    }
  }

  lemma AddEvolves(s: State, key: Key, pair: AssetPair, pool: Pool)
    requires key.0 in s.farms && pool.id == s.poolSeq + 1
    ensures Evolves(s, WithPool(s, key, pair, pool))
  {
  }

  lemma PlainEvolves(s: State, s': State)
    requires s.poolSeq <= s'.poolSeq && s.nftSeq <= s'.nftSeq
    requires forall f :: f in s'.farms ==> f > s.poolSeq || (f in s.farms && s.farms[f].accRpz <= s'.farms[f].accRpz)
    requires forall k :: k in s'.pools ==>
               && k in s.pools && s'.pools[k].id == s.pools[k].id
               && s'.pools[k].accRpvs == s.pools[k].accRpvs && s'.pools[k].accRpz == s.pools[k].accRpz
    ensures Evolves(s, s')
  {
  }

  lemma EnterEvolves(s: State, key: Key, who: nat, token: AssetId, amount: nat, now: nat, s': State)
    requires Stored(s, key) && Enter(s, key, who, token, amount, now) == Ok(s')
    ensures Evolves(s, s')
  {
    hide FixedMul, EncodeId;
  }

  lemma JoinEvolves(cfg: Config, s: State, c: Call, s': State)
    requires Inv(cfg, s) && Dispatch(cfg, s, c) == Ok(s') && c.Join?
    ensures Evolves(s, s')
  {
    hide Inv, Elapsed, Touch, Evolves, Period, Enter;
    var key := (c.farm, AmmOf(c.pair));
    Clocked(cfg, s, c.farm);
    var s1 := Touch(s, key, Now(s, c.farm)).value;
    TouchKeeps(cfg, s, key, Now(s, c.farm), s1);
    TouchEvolves(cfg, s, key, Now(s, c.farm), s1);
    EnterEvolves(s1, key, c.who, ShareToken(cfg, s, c.pair), c.amount, Now(s, c.farm), s');
    EvolvesTransitive(s, s1, s');
  }

  lemma ClaimEvolves(cfg: Config, s: State, c: Call, s': State)
    requires Lawful(cfg) && Inv(cfg, s) && Dispatch(cfg, s, c) == Ok(s') && c.Claim?
    ensures Evolves(s, s')
  {
    hide FarmsOK, PoolsOK, StructureOK, Elapsed, Touch, Evolves, Period, DecodePool, DoClaim;
    DepositLinked(s, c.nft);
    var key := KeyOf(s.meta[DecodePool(c.nft).value]);
    Clocked(cfg, s, key.0);
    var now := Now(s, key.0);
    var s1 := Touch(s, key, now).value;
    TouchEvolves(cfg, s, key, now, s1);
    TouchKeeps(cfg, s, key, now, s1);
    var (_, reward, unclaimable) := DoClaim(cfg, s1, key, c.nft, c.who, now).value;
    DoClaimKeeps(cfg, s1, key, c.nft, c.who, now, s', reward, unclaimable);
    PlainEvolves(s1, s');
    EvolvesTransitive(s, s1, s');
  }

  lemma LeaveEvolves(s: State, key: Key, nft: NftId, unclaimable: nat, s': State)
    requires Stored(s, key) && nft in s.deposits && Leave(s, key, nft, unclaimable) == Ok(s')
    ensures Evolves(s, s')
  {
    hide FixedMul;
  }

  lemma ExitEvolves(cfg: Config, s: State, key: Key, nft: NftId, who: nat, s': State)
    requires Lawful(cfg) && Inv(cfg, s) && Stored(s, key) && nft in s.deposits
    requires DecodePool(nft) == Some(s.pools[key].id) && Exit(cfg, s, key, nft, who) == Ok(s')
    ensures Evolves(s, s')
  {
    hide Inv, Elapsed, Touch, Evolves, Period, DecodePool, DoClaim, Leave;
    Clocked(cfg, s, key.0);
    var now := Now(s, key.0);
    var s1 := if s.pools[key].canceled then s else Touch(s, key, now).value;
    if s.pools[key].canceled {
      PlainEvolves(s, s1);
    } else {
      TouchKeeps(cfg, s, key, now, s1);
      TouchEvolves(cfg, s, key, now, s1);
    }
    var (s2, reward, unclaimable) := DoClaim(cfg, s1, key, nft, who, now).value;
    DoClaimKeeps(cfg, s1, key, nft, who, now, s2, reward, unclaimable);
    PlainEvolves(s1, s2);
    EvolvesTransitive(s, s1, s2);
    LeaveEvolves(s2, key, nft, unclaimable, s');
    EvolvesTransitive(s, s2, s');
  }

  lemma QuitEvolves(cfg: Config, s: State, c: Call, s': State)
    requires Lawful(cfg) && Inv(cfg, s) && Dispatch(cfg, s, c) == Ok(s') && c.Quit?
    ensures Evolves(s, s')
  {
    hide FarmsOK, PoolsOK, StructureOK, Evolves, DecodePool, Exit, MetaAfterExit;
    DepositLinked(s, c.nft);
    var key := KeyOf(s.meta[DecodePool(c.nft).value]);
    if key in s.pools {
      var s1 := Exit(cfg, s, key, c.nft, c.who).value;
      ExitEvolves(cfg, s, key, c.nft, c.who, s1);
      PlainEvolves(s1, s');
      EvolvesTransitive(s, s1, s');
    } else {
      PlainEvolves(s, s');
    }
  }

  lemma StepEvolves(cfg: Config, s: State, c: Call)
    requires Lawful(cfg) && Inv(cfg, s)
    ensures Evolves(s, Step(cfg, s, c))
  {
    hide Inv, Dispatch, Evolves, Lawful;
    var r := Dispatch(cfg, s, c);
    if r.Err? { PlainEvolves(s, s); }
    else if c.SetMultiplier? || c.Cancel? || c.Resume? { OwnerCallEvolves(cfg, s, c, r.value); }
    else if c.Join? { JoinEvolves(cfg, s, c, r.value); }
    else if c.Claim? { ClaimEvolves(cfg, s, c, r.value); }
    else if c.Quit? { QuitEvolves(cfg, s, c, r.value); }
    else { PoolCallEvolves(cfg, s, c, r.value); }
  }

  /** Over any run, both accumulators only grow while a farm or pool lives, and no farm, pool or NFT number is
      ever handed out twice. */
  lemma {:induction false} RunEvolves(cfg: Config, s: State, calls: seq<Call>)
    requires Lawful(cfg) && Inv(cfg, s) && AllowedRun(cfg, s, calls)
    ensures Evolves(s, Run(cfg, s, calls))
    decreases |calls|
  {
    hide Inv, Step, Evolves, Lawful, Allowed;
    if calls == [] {
      PlainEvolves(s, s);
    } else {
      var s1 := Step(cfg, s, calls[0]);
      StepEvolves(cfg, s, calls[0]);
      StepKeepsInv(cfg, s, calls[0]);
      RunEvolves(cfg, s1, calls[1..]);
      EvolvesTransitive(s, s1, Run(cfg, s1, calls[1..]));
    }
  }

  /** `s'` holds one more NFT than `s`: a new id of pool `id`, with the next sequence number. */
  ghost predicate Minted(s: State, s': State, who: nat, id: PoolId, nft: NftId) {
    && nft !in s.owners && nft !in s.deposits && s'.owners == s.owners[nft := who]
    && nft / 0x1_0000_0000 == s'.nftSeq == s.nftSeq + 1
    && DecodePool(nft) == Some(id)
  }

  /** A deposit mints an id no NFT has ever had: its sequence number is past every earlier one. */
  lemma MintedIdIsNew(cfg: Config, s: State, who: nat, farm: PoolId, pair: AssetPair, amount: nat, s': State)
    requires Lawful(cfg) && Reachable(cfg, s) && DepositShares(cfg, s, who, farm, pair, amount) == Ok(s')
    ensures (farm, AmmOf(pair)) in s.pools
    ensures exists nft: NftId :: Minted(s, s', who, s.pools[(farm, AmmOf(pair))].id, nft)
  {
    hide Reachable, Inv, Elapsed, Touch, Period, EncodeId, DecodePool, Enter;
    ReachableInv(cfg, s);
    var key := (farm, AmmOf(pair));
    Clocked(cfg, s, farm);
    var s1 := Touch(s, key, Now(s, farm)).value;
    TouchKeeps(cfg, s, key, Now(s, farm), s1);
    EnterShape(s1, key, who, ShareToken(cfg, s, pair), amount, Now(s, farm), s');
    var nft := EncodeId(s1.pools[key].id, s1.nftSeq + 1);
    InvStructure(cfg, s1);
    FreshNft(s1, key, nft);
    assert Minted(s, s', who, s.pools[key].id, nft);
  }

  lemma InvStructure(cfg: Config, s: State)
    requires Inv(cfg, s)
    ensures StructureOK(s)
  {
    hide StructureOK, FarmsOK, PoolsOK;
  }
}
