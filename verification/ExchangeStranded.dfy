/** A block that strands a reservation: a seller of 1000 is matched exactly with a buyer who owns the 2000 to pay for
    them and nothing for the fee of 4. Only the seller's side can be reserved, the preparation fails with nothing listed
    to revert, and the market maker then finds nothing free to sell. */
module ExchangeStranded {
  import opened Basics
  import opened Ledgers
  import opened Direct
  import opened Matching
  import opened Exchange
  import opened MatchingReserves
  import Xyk
  import XykPools

  const POOL: AccountId := XykPair(0, 1)

  function Balances(): Ledger {
    Ledger(map[0 := map[POOL := 200_000, User(2) := 2_000],
               1 := map[POOL := 100_000, User(1) := 1_000],
               2 := map[User(9) := 200_000]],
           map[])
  }

  function Stores(): Xyk.State { XykPools.OnePool(Balances(), 200_000) }

  const SELLER: Intention := Intention(1, AssetPair(1, 0), 1_000, 2_000, 0, false, true, 1)
  const BUYER: Intention := Intention(2, AssetPair(0, 1), 2_000, 1_000, 5_000, false, false, 2)

  function OneQueued(): Queue { Queue(map[(1, 0) := [SELLER]], map[(0, 1) := 1]) }
  function Queued(): Queue { Queue(map[(1, 0) := [SELLER], (0, 1) := [BUYER]], map[(0, 1) := 2]) }

  ghost predicate Configured(cfg: Xyk.Config) {
    && XykPools.Registers(cfg)
    && cfg.feeNumerator == 2 && cfg.feeDenominator == 1_000 && cfg.minTrade == 1_000 && cfg.maxIn == 3
  }

  lemma Holdings()
    ensures var l := Balances();
            && Free(l, 0, POOL) == 200_000 && Free(l, 1, POOL) == 100_000
            && Free(l, 1, User(1)) == 1_000 && Free(l, 0, User(2)) == 2_000 && Reserved(l, 1, User(1)) == 0
  {
  }

  lemma RegisteredInTurn()
    ensures Registered(Queue(map[], map[]), SELLER) == Ok(OneQueued())
    ensures Registered(OneQueued(), BUYER) == Ok(Queued())
  {
    assert [] + [SELLER] == [SELLER] && [] + [BUYER] == [BUYER];
    assert map[][(1, 0) := [SELLER]] == OneQueued().intentions && map[][(0, 1) := 1] == OneQueued().counts;
    assert OneQueued().intentions[(0, 1) := [BUYER]] == Queued().intentions;
    assert OneQueued().counts[(0, 1) := 2] == Queued().counts;
  }

  /** The queue comes about by a sell and a buy at the spot price. */
  lemma QueuedByCalls()
    ensures SellQueued(Stores(), Queue(map[], map[]), 1, AssetPair(1, 0), 1_000, 0, false, 1) == Ok(OneQueued())
    ensures BuyQueued(Stores(), OneQueued(), 2, AssetPair(0, 1), 1_000, 5_000, false, 2) == Ok(Queued())
  {
    Holdings();
    RegisteredInTurn();
    hide Free, Balances, Registered, OneQueued, Queued;
    assert Spot(Stores(), 1, 0, 1_000) == 2_000;
    hide Spot;
  }

  lemma SellerValidates(cfg: Xyk.Config)
    requires Configured(cfg)
    ensures Validated(cfg, Stores(), SELLER).Ok?
  {
    Holdings();
    hide Free, Balances;
    assert 200_000 * 1_000 / 101_000 == 1_980;
    assert Xyk.OutGivenIn(100_000, 200_000, 1_000) == Some(1_980);
    assert Xyk.TradeFee(1_980, 2, 1_000) == Some(2);
  }

  /** The one round: everything the seller has is reserved, and nothing else happens. */
  lemma RoundStrands(cfg: Xyk.Config) returns (w: World)
    requires Configured(cfg)
    ensures Matched(cfg, World(Stores(), []), POOL, SELLER, SELLER, BUYER) == Some((w, SELLER))
    ensures w.log == [] && w.amm == Stores().(ledger := w.amm.ledger)
    ensures Free(w.amm.ledger, 1, User(1)) == 0 && Reserved(w.amm.ledger, 1, User(1)) == 1_000
  {
    Holdings();
    hide Free, Reserved, Balances, Prepared;
    assert Fee(cfg, 1_000) == Some(2) && Fee(cfg, 2_000) == Some(4);
    HalfReservedStrands(cfg, Stores().ledger, SELLER, BUYER, POOL, 1_000, 2_000);
    w := OnLedger(World(Stores(), []), Prepared(cfg, Stores().ledger, SELLER, BUYER, POOL, 1_000, 2_000).0);
  }

  lemma PairStrands(cfg: Xyk.Config) returns (w: World)
    requires Configured(cfg)
    ensures ProcessedFrom(cfg, World(Stores(), []), POOL, [SELLER], [BUYER]) == Some(w)
    ensures w.log == [] && Free(w.amm.ledger, 1, User(1)) == 0 && Reserved(w.amm.ledger, 1, User(1)) == 1_000
  {
    SellerValidates(cfg);
    w := RoundStrands(cfg);
    hide Matched, Balances, Free, Reserved, Configured;
    assert [BUYER][..0] == [] && [BUYER][1..] == [] && [BUYER][..1] == [BUYER] && [SELLER][1..] == [];
    assert GroupLen([BUYER], 1_000) == 1;
    assert MatchedAll(cfg, World(Stores(), []), POOL, SELLER, [BUYER]) == Some((w, SELLER));
    assert ResolvedSingle(cfg, w, SELLER) == w by {
      assert Validated(cfg, w.amm, SELLER).Err?;
    }
    hide Validated, ResolvedSingle;
    assert ProcessedFrom(cfg, w, POOL, [], []) == Some(ResolvedEach(cfg, w, []));
  }

  /** The block over that queue, on consistent stores: no panic, no trade, and the seller's whole holding reserved. */
  lemma BlockStrands(cfg: Xyk.Config) returns (w: World)
    requires Configured(cfg)
    ensures XykPools.Inv(cfg, Stores()) && Consistent(Queued())
    ensures FinalizedIn(cfg, World(Stores(), []), Queued(), [(0, 1)]) == Some(w) && w.log == []
    ensures Free(w.amm.ledger, 1, User(1)) == 0 && Reserved(w.amm.ledger, 1, User(1)) == 1_000
    ensures !SameReserved(Stores().ledger, w.amm.ledger)
  {
    Holdings();
    XykPools.OnePoolInv(cfg, Balances(), User(9), 200_000);
    QueueConsistent();
    w := PairStrands(cfg);
    SingletonsSorted();
    hide XykPools.Inv, Balances, Consistent, Free, Reserved, Configured, ProcessedFrom, Sorted;
    assert [(0, 1)][..0] == [];
    assert Reserved(Stores().ledger, 1, User(1)) == 0;
  }

  lemma SingletonsSorted()
    ensures Sorted([SELLER]) == [SELLER] && Sorted([BUYER]) == [BUYER]
  {
    assert [SELLER][..0] == [] && [BUYER][..0] == [];
  }

  lemma QueueConsistent()
    ensures Consistent(Queued())
  {
  }
}
