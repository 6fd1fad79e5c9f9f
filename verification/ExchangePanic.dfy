/** A block that panics: three sells that the pallet queues at the spot price of one consistent pool, two of them
    matched with the third. The first match leaves 1000 against 2998 of the main intention; the second, of 999 against
    2999, is smaller in one asset and larger in the other. */
module ExchangePanic {
  import opened Basics
  import opened Ledgers
  import opened Direct
  import opened Matching
  import opened MatchingPanics
  import opened Exchange
  import Xyk
  import XykPools

  const POOL: AccountId := XykPair(0, 1)

  function Balances(): Ledger {
    Ledger(map[0 := map[POOL := 300_000, User(2) := 3_002, User(3) := 2_999],
               1 := map[POOL := 100_000, User(1) := 2_000],
               2 := map[User(9) := 300_000]],
           map[])
  }

  function Stores(): Xyk.State { XykPools.OnePool(Balances(), 300_000) }

  const MAIN: Intention := Intention(1, AssetPair(1, 0), 2_000, 6_000, 0, false, true, 1)
  const FIRST: Intention := Intention(2, AssetPair(0, 1), 3_002, 1_000, 0, false, true, 2)
  const SECOND: Intention := Intention(3, AssetPair(0, 1), 2_999, 999, 0, false, true, 3)

  function Queued(): Queue { Queue(map[(1, 0) := [MAIN], (0, 1) := [FIRST, SECOND]], map[(0, 1) := 3]) }

  ghost predicate Configured(cfg: Xyk.Config) {
    && XykPools.Registers(cfg)
    && cfg.feeNumerator == 2 && cfg.feeDenominator == 1_000 && cfg.minTrade == 1_000 && cfg.maxIn == 3
  }

  /** Who holds what of the two assets. */
  lemma Holdings()
    ensures var l := Balances();
            && Free(l, 0, POOL) == 300_000 && Free(l, 1, POOL) == 100_000
            && Free(l, 1, User(1)) == 2_000 && Free(l, 0, User(2)) == 3_002 && Free(l, 0, User(3)) == 2_999
  {
  }

  lemma Prices()
    ensures Spot(Stores(), 1, 0, 2_000) == 6_000 && Spot(Stores(), 0, 1, 3_002) == 1_000
    ensures Spot(Stores(), 0, 1, 2_999) == 999
  {
    Holdings();
    hide Free, Balances;
  }

  function OneQueued(): Queue { Queue(map[(1, 0) := [MAIN]], map[(0, 1) := 1]) }
  function TwoQueued(): Queue { Queue(map[(1, 0) := [MAIN], (0, 1) := [FIRST]], map[(0, 1) := 2]) }

  lemma RegisteredInTurn()
    ensures Registered(Queue(map[], map[]), MAIN) == Ok(OneQueued())
    ensures Registered(OneQueued(), FIRST) == Ok(TwoQueued())
    ensures Registered(TwoQueued(), SECOND) == Ok(Queued())
  {
    assert [] + [MAIN] == [MAIN] && [] + [FIRST] == [FIRST] && [FIRST] + [SECOND] == [FIRST, SECOND];
    assert map[][(1, 0) := [MAIN]] == OneQueued().intentions && map[][(0, 1) := 1] == OneQueued().counts;
    assert OneQueued().intentions[(0, 1) := [FIRST]] == TwoQueued().intentions;
    assert OneQueued().counts[(0, 1) := 2] == TwoQueued().counts;
    assert TwoQueued().intentions[(0, 1) := [FIRST, SECOND]] == Queued().intentions;
    assert TwoQueued().counts[(0, 1) := 3] == Queued().counts;
  }

  /** The queue comes about by three sells. */
  lemma QueuedBySells()
    ensures SellQueued(Stores(), Queue(map[], map[]), 1, AssetPair(1, 0), 2_000, 0, false, 1) == Ok(OneQueued())
    ensures SellQueued(Stores(), OneQueued(), 2, AssetPair(0, 1), 3_002, 0, false, 2) == Ok(TwoQueued())
    ensures SellQueued(Stores(), TwoQueued(), 3, AssetPair(0, 1), 2_999, 0, false, 3) == Ok(Queued())
  {
    Holdings();
    Prices();
    RegisteredInTurn();
    hide Free, Balances, Spot, Registered, OneQueued, TwoQueued, Queued;
  }

  lemma MainValidates(cfg: Xyk.Config)
    requires Configured(cfg)
    ensures Validated(cfg, Stores(), MAIN).Ok?
  {
    Holdings();
    hide Free, Balances;
    assert 300_000 * 2_000 / 102_000 == 5_882;
    assert Xyk.OutGivenIn(100_000, 300_000, 2_000) == Some(5_882);
    assert Xyk.TradeFee(5_882, 2, 1_000) == Some(10);
  }

  /** The first match, and the balances the second one finds. */
  lemma FirstRound(cfg: Xyk.Config) returns (w: World)
    requires Configured(cfg)
    ensures Matched(cfg, World(Stores(), []), POOL, MAIN, MAIN, FIRST) == Some((w, LeftOf(MAIN, FIRST)))
    ensures Free(w.amm.ledger, 1, User(1)) == 1_000 && Free(w.amm.ledger, 0, User(3)) == 2_999
  {
    Holdings();
    hide Free, Balances, Prepared, Executed, Supply;
    var l := Stores().ledger;
    assert Fee(cfg, 1_000) == Some(2) && Fee(cfg, 3_002) == Some(6);
    PreparedIff(cfg, l, MAIN, FIRST, POOL, 1_000, 3_002);
    var (l', legs) := Prepared(cfg, l, MAIN, FIRST, POOL, 1_000, 3_002);
    var legs' := legs.value;
    w := OnLedger(World(Stores(), []), Executed(l', legs')).(log := [] + [DirectTrade(1, 2, 1_000, 3_002)]);
    PreparedLegs(cfg, l, MAIN, FIRST, POOL, 1_000, 3_002, l', legs');
    hide Legs;
    PrepareExecuteExact(cfg, l, MAIN, FIRST, POOL, 1_000, 3_002, l', legs', User(1), 1);
    PrepareExecuteExact(cfg, l, MAIN, FIRST, POOL, 1_000, 3_002, l', legs', User(3), 0);
    SettledBrought(legs', User(1), 1);
    SettledBrought(legs', User(3), 0);
  }

  lemma PreparedLegs(cfg: Xyk.Config, l: Ledger, a: Intention, b: Intention, pool: AccountId, fromA: nat, fromB: nat,
                     l': Ledger, legs: seq<Leg>)
    requires Prepared(cfg, l, a, b, pool, fromA, fromB) == (l', Some(legs)) && a.isSell && b.isSell
    ensures Fee(cfg, fromA).Some? && Fee(cfg, fromB).Some? && Fee(cfg, fromA).value <= fromA
    ensures Fee(cfg, fromB).value <= fromB
    ensures legs == Legs(a, b, pool, fromA, fromB, Fee(cfg, fromA).value, Fee(cfg, fromB).value)
    ensures |legs| == 4
    ensures legs[0].to == User(b.who) && legs[0].asset == a.assets.assetIn
    ensures legs[1].to == User(a.who) && legs[1].asset == a.assets.assetOut
    ensures legs[2].to == pool && legs[3].to == pool
  {
    hide Free, Reserve;
  }

  /** So the group panics, in its second round. */
  lemma GroupPanics(cfg: Xyk.Config)
    requires Configured(cfg)
    ensures MatchedAll(cfg, World(Stores(), []), POOL, MAIN, [FIRST, SECOND]) == None
  {
    hide Matched, Balances, Free;
    var w := FirstRound(cfg);
    var w0 := World(Stores(), []);
    assert [FIRST, SECOND][..1] == [FIRST] && [FIRST][..0] == [];
    assert MatchedAll(cfg, w0, POOL, MAIN, [FIRST]) == Some((w, LeftOf(MAIN, FIRST)));
    assert Fee(cfg, 999) == Some(0) && Fee(cfg, 2_999) == Some(4);
    MatchedPanicsIff(cfg, w, POOL, MAIN, LeftOf(MAIN, FIRST), SECOND);
  }

  /** And with it the finalization of the block, on stores and a queue that the pallets can have. */
  lemma BlockPanics(cfg: Xyk.Config)
    requires Configured(cfg)
    ensures XykPools.Inv(cfg, Stores()) && Consistent(Queued())
    ensures FinalizedIn(cfg, World(Stores(), []), Queued(), [(0, 1)]) == None
  {
    Holdings();
    XykPools.OnePoolInv(cfg, Balances(), User(9), 300_000);
    QueueConsistent();
    MainValidates(cfg);
    GroupPanics(cfg);
    Ordering();
    hide XykPools.Inv, Validated, MatchedAll, Balances, Consistent, Free, XykPools.Registers, Sorted, GroupLen;
    assert [FIRST, SECOND][..2] == [FIRST, SECOND];
    assert [(0, 1)][..0] == [];
  }

  /** The queue is in order, and the main intention takes both others. */
  lemma Ordering()
    ensures Sorted([MAIN]) == [MAIN] && Sorted([FIRST, SECOND]) == [FIRST, SECOND]
    ensures GroupLen([FIRST, SECOND], 2_000) == 2
  {
    var bs := [FIRST, SECOND];
    assert [MAIN][..0] == [] && [FIRST][..0] == [] && bs[..1] == [FIRST] && bs[1..] == [SECOND];
    assert Sorted([FIRST]) == [FIRST] && GroupLen([SECOND], 1_000) == 1;
  }

  lemma QueueConsistent()
    ensures Consistent(Queued())
  {
  }
}
