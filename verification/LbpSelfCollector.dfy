/** A sale from genesis on that nobody can remove: its owner named the pool's own account as fee collector, one trade
    was made, and the sale is over. */
module LbpSelfCollector {
  import opened Basics
  import opened Ledgers
  import opened Lbp
  import opened LbpLaws
  import opened LbpRuns
  import Xyk

  const SALE: AccountId := LbpPair(0, 1)

  /** User 1 brings both sides of the pool, user 2 buys with asset 0. */
  function Endowment(): Ledger {
    Ledger(map[0 := map[User(1) := 10_000, User(2) := 1_000], 1 := map[User(1) := 10_000]], map[])
  }

  /** The price asked once: 900 for 1000 on equal reserves and weights. */
  predicate Prices(cfg: Config) {
    cfg.minLiquidity <= 10_000 && cfg.outGivenIn(10_000, 10_000, 50_000_000, 50_000_000, 1_000) == Some(900)
  }

  function PoolAt(start: Option<nat>, end: Option<nat>): Pool {
    Pool(User(1), start, end, (0, 1), 50_000_000, 20_000_000, (2, 1_000), SALE, 0)
  }

  function Schedule(): Update { Update(None, Some(10), Some(20), None, None, None, None, None) }

  function Beginning(): State { Genesis(Endowment(), 1) }

  const CREATE: Call := Create(User(1), 0, 10_000, 1, 10_000, 50_000_000, 20_000_000, (2, 1_000), SALE, 0)
  const CHANGE: Call := Change(1, SALE, Schedule())
  const SELL: Call := SellCall(2, AssetPair(0, 1), 1_000, 0)

  function Waits(s: State, block: nat): Call { Others(s.ledger, block) }

  /** The storage but for the ledger. */
  predicate Looks(s: State, pool: Pool, lock: nat, block: nat) {
    && s.pools == map[SALE := pool] && s.collectors == {(SALE, 0)} && s.block == block
    && LockOf(s.locks, (SALE, 0)) == lock && LockOf(s.locks, (SALE, 1)) == 0 && LockOf(s.locks, (User(2), 0)) == 0
  }

  predicate Holds(l: Ledger, sale0: nat, sale1: nat, buyer: nat) {
    Free(l, 0, SALE) == sale0 && Free(l, 1, SALE) == sale1 && Free(l, 0, User(2)) == buyer
  }

  /** The owner's two payments for the pool. */
  lemma Paid()
    ensures Transfer(Endowment(), 0, User(1), SALE, 10_000).Some?
    ensures var l := Transfer(Transfer(Endowment(), 0, User(1), SALE, 10_000).value, 1, User(1), SALE, 10_000);
            l.Some? && Holds(l.value, 10_000, 10_000, 1_000)
    ensures Free(Endowment(), 0, User(1)) == 10_000 && Free(Endowment(), 1, User(1)) == 10_000
    ensures Free(Transfer(Endowment(), 0, User(1), SALE, 10_000).value, 1, User(1)) == 10_000
  {
    var l := Endowment();
    assert Free(l, 0, User(1)) == 10_000 && Free(l, 1, User(1)) == 10_000 && Holds(l, 0, 0, 1_000);
    hide Free, Endowment, Transfer;
    TransferMoves(l, 0, User(1), SALE, 10_000, 0, SALE);
    TransferMoves(l, 0, User(1), SALE, 10_000, 1, SALE);
    TransferMoves(l, 0, User(1), SALE, 10_000, 1, User(1));
    TransferMoves(l, 0, User(1), SALE, 10_000, 0, User(2));
    var l1 := Transfer(l, 0, User(1), SALE, 10_000).value;
    TransferMoves(l1, 1, User(1), SALE, 10_000, 0, SALE);
    TransferMoves(l1, 1, User(1), SALE, 10_000, 1, SALE);
    TransferMoves(l1, 1, User(1), SALE, 10_000, 0, User(2));
  }

  lemma Created(cfg: Config)
    requires Prices(cfg)
    ensures Dispatch(cfg, Beginning(), CREATE).Ok?
    ensures var s := Step(cfg, Beginning(), CREATE);
            Looks(s, PoolAt(None, None), 0, 1) && Holds(s.ledger, 10_000, 10_000, 1_000)
  {
    Paid();
    hide Free, Endowment, Transfer, Holds;
    assert ValidatePool(PoolAt(None, None), 1).Pass?;
    assert map[][SALE := PoolAt(None, None)] == map[SALE := PoolAt(None, None)] && {} + {(SALE, 0)} == {(SALE, 0)};
  }

  lemma Scheduled(cfg: Config, s: State)
    requires Looks(s, PoolAt(None, None), 0, 1)
    ensures Dispatch(cfg, s, CHANGE).Ok?
    ensures var s' := Step(cfg, s, CHANGE); Looks(s', PoolAt(Some(10), Some(20)), 0, 1) && s'.ledger == s.ledger
  {
    var pool := PoolAt(Some(10), Some(20));
    assert Updated(PoolAt(None, None), Schedule()) == pool && ValidatePool(pool, 1).Pass?;
    assert s.pools[SALE := pool] == map[SALE := pool];
  }

  /** The trade of 1000 at block 10: 998 to the pool, 900 back, and a fee of 2 to the pool again, as collector. */
  lemma Priced(cfg: Config, s: State)
    requires Prices(cfg) && Looks(s, PoolAt(Some(10), Some(20)), 0, 10) && Holds(s.ledger, 10_000, 10_000, 1_000)
    ensures ValidateSell(cfg, s, 2, AssetPair(0, 1), 1_000, 0) == Ok(Trade(2, AssetPair(0, 1), 998, 900, 0, 2))
  {
    hide Free;
    assert Average(50_000_000, 20_000_000, 10, 0) == 50_000_000;
    assert SortedWeights(PoolAt(Some(10), Some(20)), 0, 10) == Ok((50_000_000, 50_000_000));
    assert Xyk.TradeFee(1_000, 2, 1_000) == Some(2);
    hide SortedWeights, Xyk.TradeFee;
  }

  lemma Sold(cfg: Config, s: State)
    requires Prices(cfg) && Looks(s, PoolAt(Some(10), Some(20)), 0, 10) && Holds(s.ledger, 10_000, 10_000, 1_000)
    ensures Dispatch(cfg, s, SELL).Ok?
    ensures var s' := Step(cfg, s, SELL);
            Looks(s', PoolAt(Some(10), Some(20)), 2, 10) && Free(s'.ledger, 0, SALE) == 11_000
  {
    Priced(cfg, s);
    hide ValidateSell, Free, Transfer;
    var l := s.ledger;
    TransferMoves(l, 0, User(2), SALE, 998, 0, SALE);
    TransferMoves(l, 0, User(2), SALE, 998, 1, SALE);
    TransferMoves(l, 0, User(2), SALE, 998, 0, User(2));
    var l1 := Transfer(l, 0, User(2), SALE, 998).value;
    TransferMoves(l1, 1, SALE, User(2), 900, 0, SALE);
    TransferMoves(l1, 1, SALE, User(2), 900, 0, User(2));
    var l2 := Transfer(l1, 1, SALE, User(2), 900).value;
    TransferMoves(l2, 0, User(2), SALE, 2, 0, SALE);
  }

  /** The calls, and the state they lead to. */
  function AfterCreate(cfg: Config): State { Step(cfg, Beginning(), CREATE) }
  function AfterChange(cfg: Config): State { Step(cfg, AfterCreate(cfg), CHANGE) }
  function AtStart(cfg: Config): State { Step(cfg, AfterChange(cfg), Waits(AfterChange(cfg), 10)) }
  function AfterSale(cfg: Config): State { Step(cfg, AtStart(cfg), SELL) }
  function Over(cfg: Config): State { Step(cfg, AfterSale(cfg), Waits(AfterSale(cfg), 21)) }

  function Calls(cfg: Config): seq<Call> {
    [CREATE, CHANGE, Waits(AfterChange(cfg), 10), SELL, Waits(AfterSale(cfg), 21)]
  }

  lemma OverLooks(cfg: Config)
    requires Prices(cfg)
    ensures Looks(Over(cfg), PoolAt(Some(10), Some(20)), 2, 21) && Free(Over(cfg).ledger, 0, SALE) == 11_000
    ensures AfterChange(cfg).block == 1 && AfterSale(cfg).block == 10
  {
    hide Free, Prices;
    Created(cfg);
    hide Beginning;
    Scheduled(cfg, AfterCreate(cfg));
    hide AfterCreate;
    var s := AtStart(cfg);
    assert s == AfterChange(cfg).(block := 10);
    hide AfterChange;
    Sold(cfg, s);
    hide AtStart;
    assert Over(cfg) == AfterSale(cfg).(block := 21);
    hide AfterSale;
  }

  lemma CallsLead(cfg: Config)
    requires AfterChange(cfg).block == 1 && AfterSale(cfg).block == 10
    ensures AllowedRun(cfg, Beginning(), Calls(cfg)) && Run(cfg, Beginning(), Calls(cfg)) == Over(cfg)
  {
    hide Step, Beginning;
    var c, d := Waits(AfterChange(cfg), 10), Waits(AfterSale(cfg), 21);
    assert Calls(cfg)[1..] == [CHANGE, c, SELL, d] && [CHANGE, c, SELL, d][1..] == [c, SELL, d];
    assert [c, SELL, d][1..] == [SELL, d] && [SELL, d][1..] == [d] && [d][1..] == [];
    OneMore(cfg, AfterSale(cfg), d, []);
    OneMore(cfg, AtStart(cfg), SELL, [d]);
    OneMore(cfg, AfterChange(cfg), c, [SELL, d]);
    OneMore(cfg, AfterCreate(cfg), CHANGE, [c, SELL, d]);
    OneMore(cfg, Beginning(), CREATE, [CHANGE, c, SELL, d]);
  }

  lemma OneMore(cfg: Config, s: State, c: Call, rest: seq<Call>)
    requires Allowed(s, c) && AllowedRun(cfg, Step(cfg, s, c), rest)
    ensures AllowedRun(cfg, s, [c] + rest) && Run(cfg, s, [c] + rest) == Run(cfg, Step(cfg, s, c), rest)
  {
    hide Step, Allowed;
    assert ([c] + rest)[1..] == rest;
  }

  /** The sale is over, its owner wants the liquidity back, and neither they nor anybody else can have it. */
  lemma SelfCollectorExample(cfg: Config, who: nat)
    requires Prices(cfg)
    ensures AllowedRun(cfg, Genesis(Endowment(), 1), Calls(cfg))
    ensures var s := Run(cfg, Genesis(Endowment(), 1), Calls(cfg));
            && SALE in s.pools && s.pools[SALE].owner == User(1) && !Running(s.pools[SALE], s.block)
            && RemoveLiquidity(s, who, SALE).Err?
  {
    OverLooks(cfg);
    CallsLead(cfg);
    hide Over, Step, Run, AllowedRun, Free;
    GenesisInv(Endowment(), 1);
    RunKeepsInv(cfg, Beginning(), Calls(cfg));
    SelfCollectorStuck(Over(cfg), who, SALE);
  }

  lemma GenesisInv(ledger: Ledger, block: nat)
    ensures Inv(Genesis(ledger, block))
  {
    assert Slots(map[]) == {};
  }
}
