/** The exchange pallet as it runs: intentions are queued by `sell` and `buy`, and resolved in place when the block is
    finalized. The methods are proved against `Matching` and `Direct`. */
module Exchange {
  import opened Basics
  import opened Ledgers
  import opened Direct
  import opened Matching
  import opened MatchingLaws
  import opened MatchingSafety
  import opened MatchingPanics
  import opened MatchingReserves
  import Xyk
  import XykPools

  const MIN_TRADING_LIMIT: nat := 1000

  datatype Error =
    | MinimumTradeLimitNotReached | TokenPoolNotFound | InsufficientAssetBalance | ZeroSpotPrice
    | IntentionCountOverflow

  type Pair = (AssetId, AssetId)

  /** The queue: intentions by (sold, bought), and their number by ordered pair. */
  datatype Queue = Queue(intentions: map<Pair, seq<Intention>>, counts: map<Pair, nat>)

  function At(q: Queue, p: Pair): seq<Intention> { if p in q.intentions then q.intentions[p] else [] }
  function CountAt(q: Queue, p: Pair): nat { if p in q.counts then q.counts[p] else 0 }
  function Ordered(assets: AssetPair): Pair { (assets.Lo(), assets.Hi()) }

  function Registered(q: Queue, i: Intention): Result<Queue, Error> {
    var p := Ordered(i.assets);
    if CountAt(q, p) >= MAX_U32 then Err(IntentionCountOverflow)
    else
      var key := (i.assets.assetIn, i.assets.assetOut);
      Ok(Queue(q.intentions[key := At(q, key) + [i]], q.counts[p := CountAt(q, p) + 1]))
  }

  /** The floored spot price, and zero where there is none. */
  function Spot(s: Xyk.State, a: AssetId, b: AssetId, amount: nat): nat {
    var k := Xyk.PairId(AssetPair(a, b));
    match Xyk.SpotPrice(Free(s.ledger, a, k), Free(s.ledger, b, k), amount)
    case Some(p) => p
    case None => 0
  }

  /** Every queued intention is under its own pair, and the counts are the numbers queued in both directions. */
  ghost predicate Consistent(q: Queue) {
    && (forall p, i {:trigger At(q, p)[i]} :: 0 <= i < |At(q, p)| ==> At(q, p)[i].assets == AssetPair(p.0, p.1))
    && (forall p :: p in q.counts ==> p.0 < p.1)
    && (forall lo: AssetId, hi: AssetId {:trigger CountAt(q, (lo, hi))} :: lo < hi ==>
          CountAt(q, (lo, hi)) == |At(q, (lo, hi))| + |At(q, (hi, lo))|)
  }

  lemma RegisteredConsistent(q: Queue, i: Intention, q': Queue)
    requires Consistent(q) && i.assets.assetIn != i.assets.assetOut && Registered(q, i) == Ok(q')
    ensures Consistent(q')
    ensures At(q', (i.assets.assetIn, i.assets.assetOut)) == At(q, (i.assets.assetIn, i.assets.assetOut)) + [i]
    ensures forall p :: p != (i.assets.assetIn, i.assets.assetOut) ==> At(q', p) == At(q, p)
  {
    var key := (i.assets.assetIn, i.assets.assetOut);
    assert forall p :: p != key ==> At(q', p) == At(q, p);
    forall p, j | 0 <= j < |At(q', p)|
      ensures At(q', p)[j].assets == AssetPair(p.0, p.1)
    {
      if j < |At(q, p)| {
        assert At(q', p)[j] == At(q, p)[j];
      }
    }
    forall lo: AssetId, hi: AssetId | lo < hi
      ensures CountAt(q', (lo, hi)) == |At(q', (lo, hi))| + |At(q', (hi, lo))|
    {
      assert CountAt(q, (lo, hi)) == |At(q, (lo, hi))| + |At(q, (hi, lo))|;
    }
  }

  // Queueing.

  /** Queues a sell of at least the minimum that the seller can pay, priced at the spot price. */
  function SellQueued(s: Xyk.State, q: Queue, who: nat, assets: AssetPair, amount: nat, limit: nat, discount: bool,
                      id: nat): Result<Queue, Error>
  {
    var price := Spot(s, assets.assetIn, assets.assetOut, amount);
    if amount < MIN_TRADING_LIMIT then Err(MinimumTradeLimitNotReached)
    else if !Xyk.Exists(s, assets) then Err(TokenPoolNotFound)
    else if Free(s.ledger, assets.assetIn, User(who)) < amount then Err(InsufficientAssetBalance)
    else if price == 0 then Err(ZeroSpotPrice)
    else Registered(q, Intention(who, assets, amount, price, limit, discount, true, id))
  }

  function BuyQueued(s: Xyk.State, q: Queue, who: nat, assets: AssetPair, amount: nat, limit: nat, discount: bool,
                     id: nat): Result<Queue, Error>
  {
    var price := Spot(s, assets.assetOut, assets.assetIn, amount);
    if amount < MIN_TRADING_LIMIT then Err(MinimumTradeLimitNotReached)
    else if !Xyk.Exists(s, assets) then Err(TokenPoolNotFound)
    else if price == 0 then Err(ZeroSpotPrice)
    else if Free(s.ledger, assets.assetIn, User(who)) < price then Err(InsufficientAssetBalance)
    else Registered(q, Intention(who, assets, price, amount, limit, discount, false, id))
  }

  /** A queued intention is the last under its pair, it is priced at the reserves of the moment, and its owner could
      pay what it gives; the queue stays consistent. */
  ghost predicate QueuedLast(s: Xyk.State, q: Queue, q': Queue, assets: AssetPair) {
    var key := (assets.assetIn, assets.assetOut);
    var k := Xyk.PairId(assets);
    && |At(q', key)| == |At(q, key)| + 1 && At(q', key)[..|At(q, key)|] == At(q, key)
    && (forall p :: p != key ==> At(q', p) == At(q, p))
    && var i := At(q', key)[|At(q, key)|];
       && i.assets == assets && 0 < i.amountIn <= Free(s.ledger, assets.assetIn, User(i.who)) && 0 < i.amountOut
       && Free(s.ledger, assets.assetIn, k) > 0 && Free(s.ledger, assets.assetOut, k) > 0
       && PricedAt(i, Free(s.ledger, assets.assetIn, k), Free(s.ledger, assets.assetOut, k))
  }

  lemma SellQueuedPriced(cfg: Xyk.Config, s: Xyk.State, q: Queue, who: nat, assets: AssetPair, amount: nat, limit: nat,
                         discount: bool, id: nat, q': Queue)
    requires XykPools.Inv(cfg, s) && Consistent(q)
    requires SellQueued(s, q, who, assets, amount, limit, discount, id) == Ok(q')
    ensures Consistent(q') && QueuedLast(s, q, q', assets)
  {
    hide XykPools.Inv, Free, Consistent, Registered, At;
    XykPools.DistinctAssets(cfg, s, assets);
    var price := Spot(s, assets.assetIn, assets.assetOut, amount);
    RegisteredConsistent(q, Intention(who, assets, amount, price, limit, discount, true, id), q');
  }

  lemma BuyQueuedPriced(cfg: Xyk.Config, s: Xyk.State, q: Queue, who: nat, assets: AssetPair, amount: nat, limit: nat,
                        discount: bool, id: nat, q': Queue)
    requires XykPools.Inv(cfg, s) && Consistent(q)
    requires BuyQueued(s, q, who, assets, amount, limit, discount, id) == Ok(q')
    ensures Consistent(q') && QueuedLast(s, q, q', assets)
  {
    hide XykPools.Inv, Free, Consistent, Registered, At;
    XykPools.DistinctAssets(cfg, s, assets);
    var price := Spot(s, assets.assetOut, assets.assetIn, amount);
    RegisteredConsistent(q, Intention(who, assets, price, amount, limit, discount, false, id), q');
  }

  // Finalization.

  /** Pairs resolved one after the other, in the order the store yields them. */
  function FinalizedIn(cfg: Xyk.Config, w: World, q: Queue, order: seq<Pair>): Option<World>
    decreases |order|
  {
    if order == [] then Some(w)
    else
      match FinalizedIn(cfg, w, q, order[..|order| - 1])
      case None => None
      case Some(w') => FinalizedPair(cfg, w', q, order[|order| - 1])
  }

  function FinalizedPair(cfg: Xyk.Config, w: World, q: Queue, p: Pair): Option<World> {
    if CountAt(q, p) == 0 then Some(w)
    else Processed(cfg, w, Xyk.PairId(AssetPair(p.0, p.1)), At(q, (p.1, p.0)), At(q, (p.0, p.1)))
  }

  /** Block resolution: whatever is queued and in whatever order the pairs come, no pool's product falls, every asset's
      supply is what it was except that the native asset fell exactly by the discounts charged, and the market maker's
      stores stay consistent. */
  lemma {:induction false} BlockSettles(cfg: Xyk.Config, w: World, q: Queue, order: seq<Pair>, w': World)
    requires Xyk.Lawful(cfg) && XykPools.Inv(cfg, w.amm) && FinalizedIn(cfg, w, q, order) == Some(w')
    ensures Settles(cfg, w, w')
    decreases |order|
  {
    hide Xyk.Lawful, XykPools.Inv, ProcessedFrom, Sorted, Kept;
    if order == [] {
      SettlesSame(cfg, w);
    } else {
      var p := order[|order| - 1];
      var w1 := FinalizedIn(cfg, w, q, order[..|order| - 1]).value;
      BlockSettles(cfg, w, q, order[..|order| - 1], w1);
      if CountAt(q, p) == 0 {
        SettlesSame(cfg, w1);
      } else {
        ProcessedFromSettles(cfg, w1, Xyk.PairId(AssetPair(p.0, p.1)),
                             Sorted(At(q, (p.1, p.0))), Sorted(At(q, (p.0, p.1))), w');
      }
      SettlesTransitive(cfg, w, w1, w');
    }
  }

  /** Within a resolved pair main and matched intentions are opposed. */
  lemma QueuedOpposed(q: Queue, lo: AssetId, hi: AssetId, i: nat, j: nat)
    requires Consistent(q) && lo < hi && i < |At(q, (hi, lo))| && j < |At(q, (lo, hi))|
    ensures Opposed(At(q, (hi, lo))[i], At(q, (lo, hi))[j])
  {
  }

  predicate CleanPair(cfg: Xyk.Config, w: World, q: Queue, p: Pair) {
    || CountAt(q, p) == 0
    || CleanFrom(cfg, w, Xyk.PairId(AssetPair(p.0, p.1)), Sorted(At(q, (p.1, p.0))), Sorted(At(q, (p.0, p.1))))
  }

  /** No round of the block strands a reservation. */
  predicate CleanBlock(cfg: Xyk.Config, w: World, q: Queue, order: seq<Pair>)
    decreases |order|
  {
    order != [] ==>
      var init, p := order[..|order| - 1], order[|order| - 1];
      && CleanBlock(cfg, w, q, init)
      && match FinalizedIn(cfg, w, q, init)
         case None => true
         case Some(w') => CleanPair(cfg, w', q, p)
  }

  lemma SortedMembers(s: seq<Intention>, i: Intention)
    ensures i in Sorted(s) <==> i in s
  {
    SortedLaws(s, 0);
    assert i in multiset(Sorted(s)) <==> i in multiset(s);
  }

  lemma QueueAllOpposed(q: Queue, lo: AssetId, hi: AssetId)
    requires Consistent(q) && lo < hi
    ensures AllOpposed(Sorted(At(q, (hi, lo))), Sorted(At(q, (lo, hi))))
  {
    hide Sorted;
    forall a, b | a in Sorted(At(q, (hi, lo))) && b in Sorted(At(q, (lo, hi)))
      ensures Opposed(a, b)
    {
      SortedMembers(At(q, (hi, lo)), a);
      SortedMembers(At(q, (lo, hi)), b);
      var i :| 0 <= i < |At(q, (hi, lo))| && At(q, (hi, lo))[i] == a;
      var j :| 0 <= j < |At(q, (lo, hi))| && At(q, (lo, hi))[j] == b;
      QueuedOpposed(q, lo, hi, i, j);
    }
  }

  /** A block leaves every reserved balance as it was exactly when none of its rounds strands a reservation. */
  lemma {:induction false} BlockFreesReservesIff(cfg: Xyk.Config, w: World, q: Queue, order: seq<Pair>, w': World)
    requires Xyk.Lawful(cfg) && XykPools.Inv(cfg, w.amm) && Consistent(q) && (forall p :: p in order ==> p in q.counts)
    requires FinalizedIn(cfg, w, q, order) == Some(w')
    ensures ReservedGrew(w.amm.ledger, w'.amm.ledger)
    ensures SameReserved(w.amm.ledger, w'.amm.ledger) <==> CleanBlock(cfg, w, q, order)
    decreases |order|
  {
    hide Xyk.Lawful, XykPools.Inv, ProcessedFrom, Sorted, Kept, CleanFrom, SameReserved, ReservedGrew, AllOpposed, At,
         CountAt;
    if order == [] {
      SameChain(w.amm.ledger);
    } else {
      var init, p := order[..|order| - 1], order[|order| - 1];
      assert p in order && p in q.counts && p.0 < p.1;
      var w1 := FinalizedIn(cfg, w, q, init).value;
      BlockFreesReservesIff(cfg, w, q, init, w1);
      BlockSettles(cfg, w, q, init, w1);
      if CountAt(q, p) == 0 {
        SameChain(w1.amm.ledger);
      } else {
        QueueAllOpposed(q, p.0, p.1);
        PairFreesReservesIff(cfg, w1, Xyk.PairId(AssetPair(p.0, p.1)),
                             Sorted(At(q, (p.1, p.0))), Sorted(At(q, (p.0, p.1))), w');
      }
      ReservedChain(w.amm.ledger, w1.amm.ledger, w'.amm.ledger);
    }
  }

  lemma AllSellSorted(s: seq<Intention>)
    requires AllSell(s)
    ensures AllSell(Sorted(s))
  {
    hide Sorted;
    forall i | 0 <= i < |Sorted(s)|
      ensures Sorted(s)[i].isSell
    {
      SortedMembers(s, Sorted(s)[i]);
    }
  }

  lemma {:induction false} SellersKeepBlockClean(cfg: Xyk.Config, w: World, q: Queue, order: seq<Pair>)
    requires forall p :: p in order ==> AllSell(At(q, p))
    ensures CleanBlock(cfg, w, q, order)
    decreases |order|
  {
    hide CleanFrom, Sorted, AllSell, FinalizedPair, At;
    if order != [] {
      var init, p := order[..|order| - 1], order[|order| - 1];
      SellersKeepBlockClean(cfg, w, q, init);
      assert p in order && p == (p.0, p.1);
      AllSellSorted(At(q, p));
      var r := FinalizedIn(cfg, w, q, init);
      if r.Some? {
        SellersKeepPairClean(cfg, r.value, Xyk.PairId(AssetPair(p.0, p.1)),
                             Sorted(At(q, (p.1, p.0))), Sorted(At(q, p)));
      }
    }
  }

  /** A block leaves every reserved balance as it was if every queued buy of a pair wants its lower asset: only a
      buyer of the higher one is matched against, and can lack the fee. */
  lemma SellersKeepReserves(cfg: Xyk.Config, w: World, q: Queue, order: seq<Pair>, w': World)
    requires Xyk.Lawful(cfg) && XykPools.Inv(cfg, w.amm) && Consistent(q)
    requires forall p :: p in order ==> p in q.counts && AllSell(At(q, p))
    requires FinalizedIn(cfg, w, q, order) == Some(w')
    ensures SameReserved(w.amm.ledger, w'.amm.ledger)
  {
    hide Xyk.Lawful, XykPools.Inv, FinalizedIn, CleanBlock, SameReserved, AllSell, At;
    SellersKeepBlockClean(cfg, w, q, order);
    BlockFreesReservesIff(cfg, w, q, order, w');
  }

  // In place.

  /** `done` with `x` put in at `j`. */
  function WithHole(done: seq<Intention>, j: nat, x: Intention): (s: seq<Intention>)
    requires j <= |done|
    ensures |s| == |done| + 1 && s[j] == x && (j > 0 ==> s[j - 1] == done[j - 1])
  {
    done[..j] + [x] + done[j..]
  }

  /** Everything from `j` on is smaller than `x`: inserting it can go on before. */
  ghost predicate Passed(done: seq<Intention>, j: nat, x: Intention)
    requires j <= |done|
  {
    Inserted(done, x) == Inserted(done[..j], x) + done[j..]
  }

  /** An insertion begins at the end. */
  lemma PassedNone(done: seq<Intention>, x: Intention)
    ensures Passed(done, |done|, x) && WithHole(done, |done|, x) == done + [x]
  {
    assert done[..|done|] == done;
  }

  /** One step of an insertion: the hole moves left past `done[j - 1]`. */
  lemma ShiftLeft(done: seq<Intention>, j: nat, x: Intention)
    requires 0 < j <= |done| && done[j - 1].amountIn < x.amountIn && Passed(done, j, x)
    ensures WithHole(done, j, x)[j - 1 := x][j := done[j - 1]] == WithHole(done, j - 1, x)
    ensures Passed(done, j - 1, x)
  {
    assert done[..j][..j - 1] == done[..j - 1];
    assert done[j - 1..] == [done[j - 1]] + done[j..];
  }

  lemma InsertedAt(done: seq<Intention>, j: nat, x: Intention)
    requires j <= |done| && (j > 0 ==> done[j - 1].amountIn >= x.amountIn) && Passed(done, j, x)
    ensures Inserted(done, x) == WithHole(done, j, x)
  {
    assert Inserted(done[..j], x) == done[..j] + [x];
  }

  /** Swaps `a[j - 1]` and `a[j]`. */
  method SwapLeft(a: array<Intention>, j: nat, i: nat)
    requires 0 < j <= i < a.Length
    modifies a
    ensures a[..i + 1] == old(a[..i + 1])[j - 1 := old(a[j])][j := old(a[j - 1])] && a[i + 1..] == old(a[i + 1..])
  {
    a[j - 1], a[j] := a[j], a[j - 1];
  }

  /** Moves `a[i]` left past everything smaller. */
  method InsertLast(a: array<Intention>, i: nat)
    requires i < a.Length
    modifies a
    ensures a[..i + 1] == Inserted(old(a[..i]), old(a[i])) && a[i + 1..] == old(a[i + 1..])
  {
    hide Inserted, WithHole, Passed;
    ghost var done := a[..i];
    var x, j := a[i], i;
    assert a[..i + 1] == done + [x];
    PassedNone(done, x);
    while j > 0 && a[j - 1].amountIn < x.amountIn
      invariant 0 <= j <= i && a[..i + 1] == WithHole(done, j, x) && Passed(done, j, x)
      invariant a[i + 1..] == old(a[i + 1..])
    {
      assert a[j - 1] == a[..i + 1][j - 1] && a[j] == a[..i + 1][j];
      ShiftLeft(done, j, x);
      SwapLeft(a, j, i);
      j := j - 1;
    }
    assert j > 0 ==> a[j - 1] == a[..i + 1][j - 1];
    InsertedAt(done, j, x);
  }

  /** In place, by insertion. */
  method SortDescending(a: array<Intention>)
    modifies a
    ensures a[..] == Sorted(old(a[..]))
  {
    ghost var was := a[..];
    for i := 0 to a.Length
      invariant a[..i] == Sorted(was[..i]) && a[i..] == was[i..]
    {
      assert was[..i + 1][..i] == was[..i] && a[i] == was[i] && a[i + 1..] == was[i + 1..];
      InsertLast(a, i);
    }
    assert a[..a.Length] == a[..] && was[..a.Length] == was;
  }

  class Pallet {
    const cfg: Xyk.Config
    const bank: Bank
    const idOf: (nat, nat, Pair) -> nat   // the hash that names an intention
    var stores: Xyk.State                 // the market maker's own storage; its ledger is the bank's
    var intentions: map<Pair, seq<Intention>>
    var counts: map<Pair, nat>
    var log: seq<Event>

    function World(): World
      reads this, bank
    {
      Matching.World(stores.(ledger := bank.ledger), log)
    }

    function Pending(): Queue
      reads this
    {
      Queue(intentions, counts)
    }

    constructor (cfg: Xyk.Config, bank: Bank, idOf: (nat, nat, Pair) -> nat, stores: Xyk.State)
      ensures this.cfg == cfg && this.bank == bank && this.idOf == idOf
      ensures Pending() == Queue(map[], map[]) && World() == Matching.World(stores.(ledger := bank.ledger), [])
      ensures Consistent(Pending())
    {
      this.cfg, this.bank, this.idOf, this.stores := cfg, bank, idOf, stores;
      intentions, counts, log := map[], map[], [];
    }

    method RegisterIntention(who: nat, isSell: bool, assets: AssetPair, amountIn: nat, amountOut: nat, limit: nat,
                             discount: bool) returns (r: Result<(), Error>)
      modifies `intentions, `counts
      ensures var i := Intention(who, assets, amountIn, amountOut, limit, discount, isSell, old(NextId(who, assets)));
              match r
              case Ok(_) => Registered(old(Pending()), i) == Ok(Pending())
              case Err(e) => Registered(old(Pending()), i) == Err(e) && Pending() == old(Pending())
    {
      var p := Ordered(assets);
      var count := if p in counts then counts[p] else 0;
      var i := Intention(who, assets, amountIn, amountOut, limit, discount, isSell, idOf(count, who, p));
      if count + 1 > MAX_U32 { return Err(IntentionCountOverflow); }
      counts := counts[p := count + 1];
      var key := (assets.assetIn, assets.assetOut);
      intentions := intentions[key := (if key in intentions then intentions[key] else []) + [i]];
      return Ok(());
    }

    /** The name the next intention on a pair gets. */
    function NextId(who: nat, assets: AssetPair): nat
      reads this
    {
      idOf(CountAt(Pending(), Ordered(assets)), who, Ordered(assets))
    }

    method Sell(who: nat, assetSell: AssetId, assetBuy: AssetId, amountSell: nat, minBought: nat, discount: bool)
      returns (r: Result<(), Error>)
      modifies `intentions, `counts
      ensures var spec := SellQueued(World().amm, old(Pending()), who, AssetPair(assetSell, assetBuy),
                                     amountSell, minBought, discount,
                                     old(NextId(who, AssetPair(assetSell, assetBuy))));
              match r
              case Ok(_) => spec == Ok(Pending())
              case Err(e) => spec == Err(e) && Pending() == old(Pending())
    {
      hide Spot, Free;
      var assets := AssetPair(assetSell, assetBuy);
      if amountSell < MIN_TRADING_LIMIT { return Err(MinimumTradeLimitNotReached); }
      if !Xyk.Exists(stores, assets) { return Err(TokenPoolNotFound); }
      if Free(bank.ledger, assetSell, User(who)) < amountSell { return Err(InsufficientAssetBalance); }
      var amountBuy := Spot(stores.(ledger := bank.ledger), assetSell, assetBuy, amountSell);
      if amountBuy == 0 { return Err(ZeroSpotPrice); }
      r := RegisterIntention(who, true, assets, amountSell, amountBuy, minBought, discount);
    }

    method Buy(who: nat, assetBuy: AssetId, assetSell: AssetId, amountBuy: nat, maxSold: nat, discount: bool)
      returns (r: Result<(), Error>)
      modifies `intentions, `counts
      ensures var spec := BuyQueued(World().amm, old(Pending()), who, AssetPair(assetSell, assetBuy),
                                    amountBuy, maxSold, discount,
                                    old(NextId(who, AssetPair(assetSell, assetBuy))));
              match r
              case Ok(_) => spec == Ok(Pending())
              case Err(e) => spec == Err(e) && Pending() == old(Pending())
    {
      hide Spot, Free;
      var assets := AssetPair(assetSell, assetBuy);
      if amountBuy < MIN_TRADING_LIMIT { return Err(MinimumTradeLimitNotReached); }
      if !Xyk.Exists(stores, assets) { return Err(TokenPoolNotFound); }
      var amountSell := Spot(stores.(ledger := bank.ledger), assetBuy, assetSell, amountBuy);
      if amountSell == 0 { return Err(ZeroSpotPrice); }
      if Free(bank.ledger, assetSell, User(who)) < amountSell { return Err(InsufficientAssetBalance); }
      r := RegisterIntention(who, false, assets, amountSell, amountBuy, maxSold, discount);
    }

    // Resolving.

    method VerifyIntention(i: Intention) returns (ok: bool)
      ensures ok <==> Validated(cfg, World().amm, i).Ok?
    {
      hide Xyk.ValidateSell, Xyk.ValidateBuy;
      var s := stores.(ledger := bank.ledger);
      if i.isSell {
        ok := Xyk.ValidateSell(cfg, s, i.who, i.assets, i.amountIn, i.tradeLimit, i.discount).Ok?;
      } else {
        ok := Xyk.ValidateBuy(cfg, s, i.who, i.assets, i.amountOut, i.tradeLimit, i.discount).Ok?;
      }
    }

    /** The market maker's execution is a transaction of its own. */
    method ExecuteAmmTransfer(isSell: bool, id: nat, t: Xyk.AmmTransfer) returns (ok: bool)
      modifies `log, bank
      ensures var e := AmmExecuted(cfg, old(bank.ledger), isSell, t);
              && ok == e.Ok?
              && bank.ledger == (if ok then e.value else old(bank.ledger))
              && log == if ok then old(log) + [AmmTrade(id, isSell, t)] else old(log)
    {
      hide Xyk.ExecuteSell, Xyk.ExecuteBuy;
      var e := if isSell then Xyk.ExecuteSell(cfg, bank.ledger, t) else Xyk.ExecuteBuy(cfg, bank.ledger, t);
      ok := e.Ok?;
      if ok {
        bank.ledger := e.value;
        log := log + [AmmTrade(id, isSell, t)];
      }
    }

    method ResolveSingle(i: Intention)
      modifies `log, bank
      ensures World() == ResolvedSingle(cfg, old(World()), i)
    {
      hide Validated, AmmExecuted;
      var v := Validated(cfg, stores.(ledger := bank.ledger), i);
      if v.Ok? {
        var _ := ExecuteAmmTransfer(i.isSell, i.id, v.value);
      }
    }

    /** Prepare, then execute; or revert the little there is to revert. */
    method SettleDirectly(pool: AccountId, a: Intention, b: Intention, fromA: nat, fromB: nat) returns (ok: bool)
      modifies `log, bank
      ensures (World(), ok) == Settled(cfg, old(World()), pool, a, b, fromA, fromB)
    {
      hide Prepared, Executed;
      var trade := new Trade(bank, a, b, fromA, fromB);
      ok := trade.Prepare(cfg, pool);
      if ok {
        trade.Execute();
        log := log + [DirectTrade(a.id, b.id, fromA, fromB)];
      } else {
        trade.Revert();
      }
    }

    method SettlePartly(pool: AccountId, a: Intention, b: Intention, t: Xyk.AmmTransfer) returns (ok: bool)
      modifies `log, bank
      ensures (World(), ok) == PartlySettled(cfg, old(World()), pool, a, b, t)
    {
      hide Prepared, Executed, AmmExecuted;
      var trade := new Trade(bank, a, b, a.amountIn, a.amountOut);
      ok := trade.Prepare(cfg, pool);
      if ok {
        ok := ExecuteAmmTransfer(b.isSell, b.id, t);
        if ok {
          trade.Execute();
          log := log + [DirectTrade(a.id, b.id, a.amountIn, a.amountOut)];
          assert log == old(log) + [AmmTrade(b.id, b.isSell, t), DirectTrade(a.id, b.id, a.amountIn, a.amountOut)];
        } else {
          trade.Revert();
        }
      } else {
        trade.Revert();
      }
    }

    /** One round of the loop below on the remaining main intention `a`; None is the panic. */
    method MatchRound(pool: AccountId, main: Intention, a: Intention, b: Intention) returns (r: Option<Intention>)
      modifies `log, bank
      ensures var spec := Matched(cfg, old(World()), pool, main, a, b);
              match r
              case None => spec == None
              case Some(a') => spec == Some((World(), a'))
    {
      hide Settled, PartlySettled, Validated;
      if a.amountIn > b.amountOut {
        if !WithinLimit(b, b.amountIn, b.amountOut) { return Some(a); }
        var ok := SettleDirectly(pool, a, b, b.amountOut, b.amountIn);
        if !ok { return Some(a); }
        if a.amountOut < b.amountIn { return None; }
        return Some(LeftOf(a, b));
      } else if a.amountIn < b.amountOut {
        if b.amountIn < a.amountOut { return None; }
        var v := Validated(cfg, stores.(ledger := bank.ledger), RestOf(b, a));
        if v.Err? { return Some(a); }
        var ok := SettlePartly(pool, a, b, v.value);
        return Some(if ok then a.(amountIn := 0) else a);
      } else {
        if !WithinLimit(main, a.amountIn, b.amountIn) { return Some(a); }
        if !WithinLimit(b, b.amountIn, a.amountIn) { return Some(a); }
        var ok := SettleDirectly(pool, a, b, a.amountIn, b.amountIn);
        return Some(if ok then a.(amountIn := 0) else a);
      }
    }

    method ResolveMatched(pool: AccountId, main: Intention, group: seq<Intention>) returns (panicked: bool)
      modifies `log, bank
      ensures var spec := ResolvedMatched(cfg, old(World()), pool, main, group);
              if panicked then spec == None else spec == Some(World())
    {
      hide Matched, ResolvedSingle;
      var copy := main;
      for i := 0 to |group|
        invariant MatchedAll(cfg, old(World()), pool, main, group[..i]) == Some((World(), copy))
      {
        assert group[..i + 1][..i] == group[..i];
        var r := MatchRound(pool, main, copy, group[i]);
        if r.None? {
          MatchPanics(cfg, old(World()), pool, main, group, i + 1);
          return true;
        }
        copy := r.value;
      }
      assert group[..|group|] == group;
      if copy.amountIn > 0 {
        ResolveSingle(copy);
      }
      return false;
    }

    /** The intentions, from `skip` on, that `main` is matched with. */
    method TakeGroup(bs: array<Intention>, skip: nat, main: Intention) returns (n: nat)
      requires skip <= bs.Length
      ensures n == GroupLen(bs[skip..], main.amountIn)
    {
      var totalLeft := main.amountIn;
      n := 0;
      while skip + n < bs.Length && totalLeft > 0
        invariant skip + n <= bs.Length
        invariant GroupLen(bs[skip..], main.amountIn) == n + GroupLen(bs[skip + n..], totalLeft)
      {
        assert bs[skip + n..][1..] == bs[skip + n + 1..];
        totalLeft := SaturatingSub(totalLeft, bs[skip + n].amountOut);
        n := n + 1;
      }
    }

    method ProcessIntentions(pool: AccountId, mains: array<Intention>, bs: array<Intention>) returns (panicked: bool)
      requires mains != bs
      modifies `log, bank, mains, bs
      ensures var spec := Processed(cfg, old(World()), pool, old(mains[..]), old(bs[..]));
              if panicked then spec == None else spec == Some(World())
    {
      hide ResolvedMatched, ResolvedSingle, GroupLen, Validated, Sorted;
      SortDescending(bs);
      SortDescending(mains);
      ghost var ms, others := mains[..], bs[..];
      var toSkip := 0;
      for i := 0 to mains.Length
        invariant mains[..] == ms && bs[..] == others && toSkip <= bs.Length
        invariant ProcessedFrom(cfg, old(World()), pool, ms, others) ==
                  ProcessedFrom(cfg, World(), pool, ms[i..], others[toSkip..])
      {
        assert ms[i..][1..] == ms[i + 1..];
        var ok := VerifyIntention(mains[i]);
        if ok {
          var n := TakeGroup(bs, toSkip, mains[i]);
          assert others[toSkip..][..n] == bs[toSkip..toSkip + n] && others[toSkip..][n..] == others[toSkip + n..];
          panicked := ResolveMatched(pool, mains[i], bs[toSkip..toSkip + n]);
          if panicked { return; }
          toSkip := toSkip + n;
        }
      }
      ghost var w := World();
      for i := toSkip to bs.Length
        invariant bs[..] == others
        invariant World() == ResolvedEach(cfg, w, others[toSkip..i])
      {
        assert others[toSkip..i + 1][..i - toSkip] == others[toSkip..i];
        ResolveSingle(bs[i]);
      }
      assert others[toSkip..bs.Length] == others[toSkip..];
      return false;
    }

    /** Resolves every pair with queued intentions and empties the queue. */
    method OnFinalize() returns (panicked: bool, ghost order: seq<Pair>)
      modifies this, bank
      ensures panicked ==> FinalizedIn(cfg, old(World()), old(Pending()), order) == None
      ensures !panicked ==>
                && FinalizedIn(cfg, old(World()), old(Pending()), order) == Some(World())
                && (forall p :: p in old(counts) <==> p in order) && |order| == |old(counts)|
                && Pending() == Queue(map[], map[])
      ensures !panicked && Xyk.Lawful(cfg) && old(XykPools.Inv(cfg, World().amm)) ==>
                Settles(cfg, old(World()), World())
    {
      hide Processed, Xyk.Lawful, XykPools.Inv, Settles;
      var left := counts.Keys;
      order := [];
      while left != {}
        invariant Pending() == old(Pending()) && left <= counts.Keys
        invariant forall p :: p in counts.Keys - left <==> p in order
        invariant |order| + |left| == |counts.Keys|
        invariant FinalizedIn(cfg, old(World()), old(Pending()), order) == Some(World())
        decreases left
      {
        var p :| p in left;
        left := left - {p};
        assert (order + [p])[..|order|] == order;
        order := order + [p];
        if counts[p] != 0 {
          var aIns := if (p.1, p.0) in intentions then intentions[(p.1, p.0)] else [];
          var bIns := if (p.0, p.1) in intentions then intentions[(p.0, p.1)] else [];
          var mains := new Intention[|aIns|](i requires 0 <= i < |aIns| => aIns[i]);
          var bs := new Intention[|bIns|](i requires 0 <= i < |bIns| => bIns[i]);
          assert mains[..] == aIns && bs[..] == bIns;
          panicked := ProcessIntentions(Xyk.PairId(AssetPair(p.0, p.1)), mains, bs);
          if panicked { return; }
        }
      }
      counts, intentions := map[], map[];
      panicked := false;
      if Xyk.Lawful(cfg) && old(XykPools.Inv(cfg, World().amm)) {
        BlockSettles(cfg, old(World()), old(Pending()), order, World());
      }
    }
  }
}
