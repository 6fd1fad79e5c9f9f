/** A reachable farm that is short: a pool added after rewards have accrued starts with accumulator zero, so its first
    draw asks for its share of all that was ever accrued, and its depositors can neither claim nor leave. */
module MiningShortFarm {
  import opened Basics
  import opened Ledgers
  import opened NftIds
  import opened Mining
  import opened MiningLifecycle
  import opened MiningRuns

  // One more allowed call leads from a reachable state to a reachable state.

  lemma {:induction false} RunSnoc(cfg: Config, s: State, calls: seq<Call>, c: Call)
    requires AllowedRun(cfg, s, calls) && Allowed(Run(cfg, s, calls), c)
    ensures AllowedRun(cfg, s, calls + [c]) && Run(cfg, s, calls + [c]) == Step(cfg, Run(cfg, s, calls), c)
    decreases |calls|
  {
    hide Step, Allowed;
    if calls == [] {
      assert [c][1..] == [] && calls + [c] == [c];
      assert Run(cfg, s, [c]) == Run(cfg, Step(cfg, s, c), []);
    } else {
      assert (calls + [c])[1..] == calls[1..] + [c];
      RunSnoc(cfg, Step(cfg, s, calls[0]), calls[1..], c);
    }
  }

  lemma ReachableStep(cfg: Config, s: State, c: Call)
    requires Reachable(cfg, s) && Allowed(s, c)
    ensures Reachable(cfg, Step(cfg, s, c))
  {
    hide Step, Allowed, Run, AllowedRun, Initial;
    var ledger, calls :| Reaches(cfg, ledger, calls, s);
    RunSnoc(cfg, Initial(ledger), calls, c);
    assert Reaches(cfg, ledger, calls + [c], Step(cfg, s, c));
  }

  // The scene.

  const FIRST_AMM: AccountId := XykPair(1, 2)
  const SECOND_AMM: AccountId := XykPair(1, 3)
  const FIRST: Key := (1, XykPair(1, 2))
  const SECOND: Key := (1, XykPair(1, 3))

  /** Each pair has its own share token. */
  function Token(amm: AccountId): AssetId { if amm == FIRST_AMM then 8 else 9 }

  function Parameters(): Config { Config(0, 1, Token, (c: Curve, p: nat) => Some(FIXED_ONE)) }

  /** User 1 funds the farm in asset 0; users 2 and 3 hold LP shares of one pair each, assets 8 and 9. */
  function Endowment(): Ledger {
    Ledger(map[0 := map[User(1) := 100_000], 1 := map[FIRST_AMM := 1, SECOND_AMM := 1],
               8 := map[User(2) := 100], 9 := map[User(3) := 200]], map[])
  }

  function FarmAt(updatedAt: nat, shares: nat, rpz: nat, accrued: nat, pools: nat): Farm {
    Farm(1, updatedAt, shares, rpz, 0, accrued, 0, 1_000_000, 100, 1, 1, 1_000, pools)
  }

  function PoolAt(id: PoolId, updatedAt: nat, shares: nat): Pool {
    Pool(id, updatedAt, shares, shares, 0, 0, None, shares, FIXED_ONE, false)
  }

  /** The storage, but for the ledger and the history. */
  predicate Looks(s: State, farm: Farm, pools: map<Key, Pool>, meta: map<PoolId, Meta>, poolSeq: nat, nftSeq: nat,
                  block: nat)
  {
    && s.farms == map[1 := farm] && s.pools == pools && s.meta == meta && s.audit.Keys == {1}
    && s.poolSeq == poolSeq && s.nftSeq == nftSeq && s.block == block && s.amms == {FIRST_AMM, SECOND_AMM}
    && s.owners.Keys == s.deposits.Keys
    && Free(s.ledger, 0, MiningPool(1)) == 100_000
    && Free(s.ledger, 1, FIRST_AMM) == 1 && Free(s.ledger, 1, SECOND_AMM) == 1
  }

  function Opened(): State {
    Step(Parameters(), Initial(Endowment()), Others(Endowment(), {FIRST_AMM, SECOND_AMM}, map[], 0))
  }
  function Created(): State { Step(Parameters(), Opened(), Create(100_000, 100, 1, 1, 0, 1, 1_000_000)) }
  function FirstAdded(): State { Step(Parameters(), Created(), AddPool(1, 1, AssetPair(1, 2), FIXED_ONE, None)) }
  function FirstJoined(): State { Step(Parameters(), FirstAdded(), Join(2, 1, AssetPair(1, 2), 100)) }
  function Waited(s: State, block: nat): State { Step(Parameters(), s, Others(s.ledger, s.amms, s.owners, block)) }
  function SecondAdded(): State {
    Step(Parameters(), Waited(FirstJoined(), 10), AddPool(1, 1, AssetPair(1, 3), FIXED_ONE, None))
  }
  function SecondJoined(): State { Step(Parameters(), SecondAdded(), Join(3, 1, AssetPair(1, 3), 200)) }
  function Short(): State { Waited(SecondJoined(), 11) }

  lemma InitialReachable(cfg: Config, ledger: Ledger)
    ensures Reachable(cfg, Initial(ledger))
  {
    assert Reaches(cfg, ledger, [], Initial(ledger));
  }

  lemma WaitedReachable(s: State, block: nat)
    requires Reachable(Parameters(), s) && s.block <= block
    ensures Reachable(Parameters(), Waited(s, block)) && Waited(s, block) == s.(block := block)
  {
    hide Reachable;
    ReachableStep(Parameters(), s, Others(s.ledger, s.amms, s.owners, block));
  }

  /** The farm's pot is funded, and nobody else's balance changed. */
  lemma Funded()
    ensures Free(Endowment(), 0, User(1)) == 100_000
    ensures var l := Transfer(Endowment(), 0, User(1), MiningPool(1), 100_000).value;
            && Free(l, 0, MiningPool(1)) == 100_000 && Free(l, 1, FIRST_AMM) == 1 && Free(l, 1, SECOND_AMM) == 1
            && Free(l, 8, User(2)) == 100 && Free(l, 9, User(3)) == 200
  {
    var l := Endowment();
    assert Free(l, 0, User(1)) == 100_000 && Free(l, 0, MiningPool(1)) == 0;
    assert Free(l, 1, FIRST_AMM) == 1 && Free(l, 1, SECOND_AMM) == 1;
    assert Free(l, 8, User(2)) == 100 && Free(l, 9, User(3)) == 200;
    hide Free, Transfer, Endowment;
    TransferMoves(l, 0, User(1), MiningPool(1), 100_000, 0, MiningPool(1));
    TransferMoves(l, 0, User(1), MiningPool(1), 100_000, 1, FIRST_AMM);
    TransferMoves(l, 0, User(1), MiningPool(1), 100_000, 1, SECOND_AMM);
    TransferMoves(l, 0, User(1), MiningPool(1), 100_000, 8, User(2));
    TransferMoves(l, 0, User(1), MiningPool(1), 100_000, 9, User(3));
  }

  lemma OpenedReachable()
    ensures Reachable(Parameters(), Opened())
    ensures Opened() == Initial(Endowment()).(amms := {FIRST_AMM, SECOND_AMM})
  {
    hide Reachable, Endowment, Free;
    InitialReachable(Parameters(), Endowment());
    ReachableStep(Parameters(), Initial(Endowment()), Others(Endowment(), {FIRST_AMM, SECOND_AMM}, map[], 0));
  }

  lemma CreatedLooks()
    ensures Reachable(Parameters(), Created())
    ensures Looks(Created(), FarmAt(0, 0, 0, 0, 0), map[], map[], 1, 0, 0)
    ensures Created().deposits == map[]
    ensures Free(Created().ledger, 8, User(2)) == 100 && Free(Created().ledger, 9, User(3)) == 200
  {
    OpenedReachable();
    Funded();
    hide Reachable, Endowment, Free, Transfer, Opened;
    ReachableStep(Parameters(), Opened(), Create(100_000, 100, 1, 1, 0, 1, 1_000_000));
    assert map[][1 := FarmAt(0, 0, 0, 0, 0)] == map[1 := FarmAt(0, 0, 0, 0, 0)];
  }

  /** Adding a pool to this farm: it accrues `reward`, and the pool starts from nothing. */
  lemma AddLooks(s: State, farm: Farm, pools: map<Key, Pool>, meta: map<PoolId, Meta>, pair: AssetPair, s': State,
                 reward: nat)
    requires Looks(s, farm, pools, meta, s.poolSeq, s.nftSeq, s.block) && s.poolSeq < 100 && farm.owner == 1
    requires farm.livePools < 100
    requires farm.incentivized == 1 && farm.blocksPerPeriod == 1 && pair.assetIn == 1 && AmmOf(pair) in s.amms
    requires (1, AmmOf(pair)) !in pools && Reachable(Parameters(), s)
    requires NoStale(meta, (1, AmmOf(pair)))
    requires MaybeUpdateFarm(farm, 1, s.ledger, s.block) ==
             Ok((farm.(updatedAt := s.block, accRpz := farm.accRpz + reward / 100,
                       accRewards := farm.accRewards + reward), reward))
    requires s' == Step(Parameters(), s, AddPool(1, 1, pair, FIXED_ONE, None))
    ensures Reachable(Parameters(), s')
    ensures Looks(s', farm.(updatedAt := s.block, accRpz := farm.accRpz + reward / 100,
                            accRewards := farm.accRewards + reward, livePools := farm.livePools + 1),
                  pools[(1, AmmOf(pair)) := PoolAt(s.poolSeq + 1, s.block, 0)], meta[s.poolSeq + 1 := Meta(pair, 0, 1)],
                  s.poolSeq + 1, s.nftSeq, s.block)
    ensures s'.deposits == s.deposits && s'.ledger == s.ledger
  {
    hide Reachable, MaybeUpdateFarm, Free;
    ReachableStep(Parameters(), s, AddPool(1, 1, pair, FIXED_ONE, None));
    assert s.block / 1 == s.block;
  }

  lemma EmptyPoolIdle(s: State, key: Key, now: nat)
    requires Stored(s, key) && s.pools[key].totalShares == 0
    ensures Touch(s, key, now) == Ok(s)
  {
    var u := Accrual(s.farms[key.0], s.pools[key], s.ledger, 0, 0);
    assert s.farms[key.0 := u.farm] == s.farms && s.pools[key := u.pool] == s.pools;
    assert s.audit[key.0 := AuditAfter(s.audit[key.0], 0, 0)] == s.audit;
  }

  function Joined(s: State, key: Key, nft: NftId, id: PoolId, pair: AssetPair, who: nat, amount: nat,
                  ledger: Ledger): State
    requires key.0 in s.farms
  {
    s.(farms := s.farms[key.0 := s.farms[key.0].(totalSharesZ := s.farms[key.0].totalSharesZ + amount)],
       pools := s.pools[key := PoolAt(id, s.block, amount)],
       deposits := s.deposits[nft := Stake(amount, amount, 0, 0, s.block, s.block)],
       owners := s.owners[nft := who],
       meta := s.meta[id := Meta(pair, 1, 1)],
       nftSeq := s.nftSeq + 1,
       ledger := ledger)
  }

  lemma EnterEmpty(s: State, key: Key, nft: NftId, id: PoolId, pair: AssetPair, who: nat, amount: nat)
    requires Stored(s, key) && s.pools[key] == PoolAt(id, s.block, 0) && 0 < id && id in s.meta
    requires s.meta[id] == Meta(pair, 0, 1)
    requires s.farms[key.0].totalSharesZ < 1_000 && Free(s.ledger, s.farms[key.0].incentivized, key.1) == 1
    requires s.nftSeq < 100 && nft == EncodeId(id, s.nftSeq + 1) && nft !in s.owners
    requires 0 < amount < 1_000 && amount <= Free(s.ledger, Token(key.1), User(who))
    ensures var paid := Transfer(s.ledger, Token(key.1), User(who), MiningPallet, amount).value;
            Enter(s, key, who, Token(key.1), amount, s.block) == Ok(Joined(s, key, nft, id, pair, who, amount, paid))
  {
    hide EncodeId, Transfer, Free;
    assert FixedMul(FIXED_ONE, amount) == amount;
  }

  /** The first deposit in an empty pool of this farm: an AMM reserve of one makes shares, valued shares and stake
      equal. */
  lemma JoinLooks(s: State, farm: Farm, pools: map<Key, Pool>, meta: map<PoolId, Meta>, pair: AssetPair, id: PoolId,
                  who: nat, amount: nat, nft: NftId)
    requires Looks(s, farm, pools, meta, s.poolSeq, s.nftSeq, s.block) && Reachable(Parameters(), s)
    requires farm.incentivized == 1 && farm.blocksPerPeriod == 1 && farm.totalSharesZ < 1_000 && AmmOf(pair) in s.amms
    requires (1, AmmOf(pair)) in pools && pools[(1, AmmOf(pair))] == PoolAt(id, s.block, 0)
    requires 0 < id && id in meta && meta[id] == Meta(pair, 0, 1)
    requires s.nftSeq < 100 && nft == EncodeId(id, s.nftSeq + 1) && nft !in s.owners
    requires 0 < amount < 1_000 && amount <= Free(s.ledger, Token(AmmOf(pair)), User(who))
    ensures var s' := Step(Parameters(), s, Join(who, 1, pair, amount));
            && Reachable(Parameters(), s')
            && s' == Joined(s, (1, AmmOf(pair)), nft, id, pair, who, amount,
                            Transfer(s.ledger, Token(AmmOf(pair)), User(who), MiningPallet, amount).value)
  {
    hide Reachable, EncodeId, Transfer, Free, Enter, Touch, Joined;
    var key := (1, AmmOf(pair));
    ReachableStep(Parameters(), s, Join(who, 1, pair, amount));
    assert s.block / 1 == s.block;
    EmptyPoolIdle(s, key, s.block);
    EnterEmpty(s, key, nft, id, pair, who, amount);
  }

  lemma JoinedLooks(s: State, farm: Farm, pools: map<Key, Pool>, meta: map<PoolId, Meta>, pair: AssetPair, id: PoolId,
                    who: nat, amount: nat, nft: NftId, s': State, other: nat)
    requires Looks(s, farm, pools, meta, s.poolSeq, s.nftSeq, s.block) && other != who
    requires amount <= Free(s.ledger, Token(AmmOf(pair)), User(who))
    requires s' == Joined(s, (1, AmmOf(pair)), nft, id, pair, who, amount,
                          Transfer(s.ledger, Token(AmmOf(pair)), User(who), MiningPallet, amount).value)
    ensures Looks(s', farm.(totalSharesZ := farm.totalSharesZ + amount),
                  pools[(1, AmmOf(pair)) := PoolAt(id, s.block, amount)],
                  meta[id := Meta(pair, 1, 1)], s.poolSeq, s.nftSeq + 1, s.block)
    ensures Free(s'.ledger, 9, User(other)) == Free(s.ledger, 9, User(other))
  {
    hide Transfer, Free;
    var l := s.ledger;
    TransferMoves(l, Token(AmmOf(pair)), User(who), MiningPallet, amount, 0, MiningPool(1));
    TransferMoves(l, Token(AmmOf(pair)), User(who), MiningPallet, amount, 1, FIRST_AMM);
    TransferMoves(l, Token(AmmOf(pair)), User(who), MiningPallet, amount, 1, SECOND_AMM);
    TransferMoves(l, Token(AmmOf(pair)), User(who), MiningPallet, amount, 9, User(other));
    var farm' := farm.(totalSharesZ := farm.totalSharesZ + amount);
    assert map[1 := farm][1 := farm'] == map[1 := farm'];
  }

  // The run.

  /** Both at once. */
  lemma JoinStep(s: State, farm: Farm, pools: map<Key, Pool>, meta: map<PoolId, Meta>, poolSeq: nat, nftSeq: nat,
                 block: nat, pair: AssetPair, id: PoolId, who: nat, amount: nat, nft: NftId, other: nat)
    requires Looks(s, farm, pools, meta, poolSeq, nftSeq, block) && Reachable(Parameters(), s)
    requires farm.incentivized == 1 && farm.blocksPerPeriod == 1 && farm.totalSharesZ < 1_000
    requires AmmOf(pair) in {FIRST_AMM, SECOND_AMM}
    requires (1, AmmOf(pair)) in pools && pools[(1, AmmOf(pair))] == PoolAt(id, block, 0)
    requires 0 < id && id in meta && meta[id] == Meta(pair, 0, 1)
    requires nftSeq < 100 && nft == EncodeId(id, nftSeq + 1) && nft !in s.owners
    requires 0 < amount < 1_000 && amount <= Free(s.ledger, Token(AmmOf(pair)), User(who)) && other != who
    ensures var s' := Step(Parameters(), s, Join(who, 1, pair, amount));
            && Reachable(Parameters(), s')
            && Looks(s', farm.(totalSharesZ := farm.totalSharesZ + amount),
                     pools[(1, AmmOf(pair)) := PoolAt(id, block, amount)],
                     meta[id := Meta(pair, 1, 1)], poolSeq, nftSeq + 1, block)
            && s'.deposits == s.deposits[nft := Stake(amount, amount, 0, 0, block, block)]
            && s'.owners == s.owners[nft := who]
            && Free(s'.ledger, 9, User(other)) == Free(s.ledger, 9, User(other))
  {
    hide Reachable, EncodeId, Transfer, Free, Step;
    JoinLooks(s, farm, pools, meta, pair, id, who, amount, nft);
    JoinedLooks(s, farm, pools, meta, pair, id, who, amount, nft, Step(Parameters(), s, Join(who, 1, pair, amount)),
                other);
  }

  lemma FirstAddedLooks()
    ensures Reachable(Parameters(), FirstAdded())
    ensures Looks(FirstAdded(), FarmAt(0, 0, 0, 0, 1), map[FIRST := PoolAt(2, 0, 0)],
                  map[2 := Meta(AssetPair(1, 2), 0, 1)], 2, 0, 0)
    ensures FirstAdded().owners == map[]
    ensures Free(FirstAdded().ledger, 8, User(2)) == 100 && Free(FirstAdded().ledger, 9, User(3)) == 200
  {
    CreatedLooks();
    hide Reachable, Free, Created;
    AddLooks(Created(), FarmAt(0, 0, 0, 0, 0), map[], map[], AssetPair(1, 2), FirstAdded(), 0);
    hide FirstAdded;
    assert map[][FIRST := PoolAt(2, 0, 0)] == map[FIRST := PoolAt(2, 0, 0)];
    assert map[][2 := Meta(AssetPair(1, 2), 0, 1)] == map[2 := Meta(AssetPair(1, 2), 0, 1)];
  }

  lemma FirstLooks()
    ensures Reachable(Parameters(), FirstJoined())
    ensures Looks(FirstJoined(), FarmAt(0, 100, 0, 0, 1), map[FIRST := PoolAt(2, 0, 100)],
                  map[2 := FIRST_META], 2, 1, 0)
    ensures FirstJoined().owners.Keys == {EncodeId(2, 1)} && Free(FirstJoined().ledger, 9, User(3)) == 200
  {
    FirstAddedLooks();
    hide Reachable, EncodeId, Free, Looks, Step, FirstAdded;
    var pair := AssetPair(1, 2);
    var pools, meta := map[FIRST := PoolAt(2, 0, 0)], map[2 := Meta(pair, 0, 1)];
    JoinStep(FirstAdded(), FarmAt(0, 0, 0, 0, 1), pools, meta, 2, 0, 0, pair, 2, 2, 100, EncodeId(2, 1), 3);
    assert pools[FIRST := PoolAt(2, 0, 100)] == map[FIRST := PoolAt(2, 0, 100)];
    assert meta[2 := Meta(pair, 1, 1)] == map[2 := FIRST_META];
  }

  /** After ten periods at 100 the farm has accrued 1000. */
  lemma TenPeriods(ledger: Ledger)
    requires Free(ledger, 0, MiningPool(1)) == 100_000
    ensures MaybeUpdateFarm(FarmAt(0, 100, 0, 0, 1), 1, ledger, 10) == Ok((FarmAt(10, 100, 10, 1_000, 1), 1_000))
  {
    hide Free;
    assert FIXED_ONE / 1_000_000 * 1_000_000 == FIXED_ONE;
    assert FixedMul(FIXED_ONE, 100) == 100;
  }

  const FIRST_META: Meta := Meta(AssetPair(1, 2), 1, 1)

  /** Both pools and their metadata, with `shares` in the second. */
  function BothPools(shares: nat): map<Key, Pool> { map[FIRST := PoolAt(2, 0, 100), SECOND := PoolAt(3, 10, shares)] }
  function BothMeta(count: nat): map<PoolId, Meta> { map[2 := FIRST_META, 3 := Meta(AssetPair(1, 3), count, 1)] }

  lemma BothUpdated()
    ensures map[FIRST := PoolAt(2, 0, 100)][SECOND := PoolAt(3, 10, 0)] == BothPools(0)
    ensures map[2 := FIRST_META][3 := Meta(AssetPair(1, 3), 0, 1)] == BothMeta(0)
    ensures BothPools(0)[SECOND := PoolAt(3, 10, 200)] == BothPools(200)
    ensures BothMeta(0)[3 := Meta(AssetPair(1, 3), 1, 1)] == BothMeta(1)
    ensures SECOND in BothPools(0) && BothPools(0)[SECOND] == PoolAt(3, 10, 0)
    ensures 3 in BothMeta(0) && BothMeta(0)[3] == Meta(AssetPair(1, 3), 0, 1)
  {
    hide PoolAt;
  }

  lemma SecondAddedLooks()
    ensures Reachable(Parameters(), SecondAdded())
    ensures Looks(SecondAdded(), FarmAt(10, 100, 10, 1_000, 2), BothPools(0), BothMeta(0), 3, 1, 10)
    ensures SecondAdded().owners.Keys == {EncodeId(2, 1)} && Free(SecondAdded().ledger, 9, User(3)) == 200
  {
    FirstLooks();
    BothUpdated();
    hide Reachable, EncodeId, Free, FirstJoined, BothPools, BothMeta;
    var s := Waited(FirstJoined(), 10);
    WaitedReachable(FirstJoined(), 10);
    TenPeriods(s.ledger);
    hide Waited;
    AddLooks(s, FarmAt(0, 100, 0, 0, 1), map[FIRST := PoolAt(2, 0, 100)], map[2 := FIRST_META], AssetPair(1, 3),
             SecondAdded(), 1_000);
  }

  lemma SecondNftNew()
    ensures EncodeId(3, 2) !in SecondAdded().owners
  {
    SecondAddedLooks();
    IdsNeverCollide(2, 1, 3, 2);
    hide EncodeId, SecondAdded;
  }

  lemma SecondJoinedLooks()
    ensures Reachable(Parameters(), SecondJoined())
    ensures Looks(SecondJoined(), FarmAt(10, 300, 10, 1_000, 2), BothPools(200), BothMeta(1), 3, 2, 10)
    ensures var s, nft := SecondJoined(), EncodeId(3, 2);
            && nft in s.deposits && nft in s.owners && s.owners[nft] == 3
            && s.deposits[nft] == Stake(200, 200, 0, 0, 10, 10)
  {
    SecondAddedLooks();
    SecondNftNew();
    BothUpdated();
    hide Reachable, EncodeId, Free, Looks, Step, SecondAdded, BothPools, BothMeta, PoolAt;
    JoinStep(SecondAdded(), FarmAt(10, 100, 10, 1_000, 2), BothPools(0), BothMeta(0), 3, 1, 10, AssetPair(1, 3), 3, 3,
             200,
             EncodeId(3, 2), 2);
  }

  lemma ShortLooks()
    ensures Reachable(Parameters(), Short())
    ensures Looks(Short(), FarmAt(10, 300, 10, 1_000, 2), BothPools(200), BothMeta(1), 3, 2, 11)
    ensures var s, nft := Short(), EncodeId(3, 2);
            && nft in s.deposits && nft in s.owners && s.owners[nft] == 3
            && s.deposits[nft] == Stake(200, 200, 0, 0, 10, 10)
  {
    SecondJoinedLooks();
    hide Reachable, EncodeId, Free, SecondJoined, BothPools, BothMeta;
    WaitedReachable(SecondJoined(), 11);
    hide Waited;
  }

  /** The second pool draws 11 * 200 where the farm has accrued 1300. */
  lemma SecondDraws(ledger: Ledger)
    requires Free(ledger, 0, MiningPool(1)) == 100_000
    ensures MaybeUpdatePools(FarmAt(10, 300, 10, 1_000, 2), 1, PoolAt(3, 10, 200), ledger, 11) ==
            Err(Underflow(FarmAccrued))
  {
    hide Free;
    assert FIXED_ONE / 1_000_000 * 1_000_000 == FIXED_ONE;
    assert FixedMul(FIXED_ONE, 300) == 300;
    assert MaybeUpdateFarm(FarmAt(10, 300, 10, 1_000, 2), 1, ledger, 11) == Ok((FarmAt(11, 300, 11, 1_300, 2), 300));
  }

  /** In this reachable state the owner of a live deposit in a live pool can neither claim nor withdraw, although they
      never
      claimed and every pot holds what it should. */
  lemma FarmCanBeShort()
    ensures Lawful(Parameters()) && Reachable(Parameters(), Short())
    ensures ClaimRewards(Parameters(), Short(), 3, EncodeId(3, 2)) == Err(Underflow(FarmAccrued))
    ensures WithdrawShares(Parameters(), Short(), 3, EncodeId(3, 2)) == Err(Underflow(FarmAccrued))
  {
    ShortLooks();
    hide Reachable, Free, Short, EncodeId, DecodePool;
    var s := Short();
    IdRoundTrip(3, 2);
    SecondDraws(s.ledger);
    assert s.block / 1 == 11;
    assert s.farms[1] == FarmAt(10, 300, 10, 1_000, 2) && s.pools[SECOND] == PoolAt(3, 10, 200);
    assert Touch(s, SECOND, 11) == Err(Underflow(FarmAccrued)) by { hide MaybeUpdatePools; }
    hide Touch;
  }
}
