/** What a caller queues, to the last field, and that a block gives every queued intention its turn. */
module ExchangeTurns {
  import opened Basics
  import opened Ledgers
  import opened Direct
  import opened Matching
  import opened MatchingLaws
  import opened MatchingTurns
  import opened Exchange
  import Xyk

  // Queueing.

  /** The spot price of `amount` of `a` in `b`, rounded down. */
  function PriceIn(s: Xyk.State, a: AssetId, b: AssetId, amount: nat): nat
    requires Free(s.ledger, a, Xyk.PairId(AssetPair(a, b))) > 0
  {
    var k := Xyk.PairId(AssetPair(a, b));
    amount * Free(s.ledger, b, k) / Free(s.ledger, a, k)
  }

  /** There is a price: the pool exists and the price is a positive 128-bit number. */
  predicate Priced(s: Xyk.State, a: AssetId, b: AssetId, amount: nat) {
    && Xyk.Exists(s, AssetPair(a, b)) && Free(s.ledger, a, Xyk.PairId(AssetPair(a, b))) > 0
    && 0 < PriceIn(s, a, b, amount) <= MAX_U128
  }

  predicate HasRoom(q: Queue, a: AssetId, b: AssetId) {
    CountAt(q, if a <= b then (a, b) else (b, a)) < MAX_U32
  }

  /** `q'` is `q` with `i` behind the intentions of its pair and direction, and nothing else. */
  ghost predicate Appended(q: Queue, q': Queue, i: Intention) {
    var key := (i.assets.assetIn, i.assets.assetOut);
    && At(q', key) == At(q, key) + [i]
    && (forall p :: p != key ==> At(q', p) == At(q, p))
  }

  /** A sell is queued exactly when it is large enough, covered and priced; what is queued is the caller's intention
      with the spot price of this moment. */
  lemma SellQueuedIff(s: Xyk.State, q: Queue, who: nat, a: AssetId, b: AssetId, amount: nat, limit: nat, discount: bool,
                      id: nat)
    ensures var r := SellQueued(s, q, who, AssetPair(a, b), amount, limit, discount, id);
            && (r.Ok? <==>
                  && 1000 <= amount <= Free(s.ledger, a, User(who))
                  && Priced(s, a, b, amount) && HasRoom(q, a, b))
            && (r.Ok? ==>
                  var price := PriceIn(s, a, b, amount);
                  Appended(q, r.value, Intention(who, AssetPair(a, b), amount, price, limit, discount, true, id)))
  {
    hide Free;
  }

  /** A buy likewise; it has to be covered at the spot price. */
  lemma BuyQueuedIff(s: Xyk.State, q: Queue, who: nat, a: AssetId, b: AssetId, amount: nat, limit: nat, discount: bool,
                     id: nat)
    ensures var r := BuyQueued(s, q, who, AssetPair(a, b), amount, limit, discount, id);
            && (r.Ok? <==>
                  && 1000 <= amount && Priced(s, b, a, amount)
                  && PriceIn(s, b, a, amount) <= Free(s.ledger, a, User(who)) && HasRoom(q, a, b))
            && (r.Ok? ==>
                  var price := PriceIn(s, b, a, amount);
                  Appended(q, r.value, Intention(who, AssetPair(a, b), price, amount, limit, discount, false, id)))
  {
    hide Free;
    assert Xyk.PairId(AssetPair(a, b)) == Xyk.PairId(AssetPair(b, a));
  }

  // Blocks.

  /** The pair `p` was resolved from `w` to `w'`: each intention queued under it had exactly one turn, those selling the
      higher asset as main intentions, the others as their partners, either side largest first. */
  ghost predicate PairResolved(cfg: Xyk.Config, q: Queue, p: Pair, w: World, turns: seq<Turn>, ws: seq<World>,
                               w': World)
  {
    && Played(cfg, Xyk.PairId(AssetPair(p.0, p.1)), turns, ws) && |ws| == |turns| + 1
    && ws[0] == w && ws[|turns|] == w'
    && Descending(MainsOf(turns)) && multiset(MainsOf(turns)) == multiset(At(q, (p.1, p.0)))
    && Descending(PartnersOf(turns)) && multiset(PartnersOf(turns)) == multiset(At(q, (p.0, p.1)))
  }

  lemma PairTakesTurns(cfg: Xyk.Config, w: World, q: Queue, p: Pair, w': World)
    returns (turns: seq<Turn>, ws: seq<World>)
    requires Consistent(q) && p in q.counts && FinalizedPair(cfg, w, q, p) == Some(w')
    ensures PairResolved(cfg, q, p, w, turns, ws, w')
  {
    hide ProcessedFrom, Sorted, Played;
    var mains, bs := At(q, (p.1, p.0)), At(q, (p.0, p.1));
    if CountAt(q, p) == 0 {
      assert |mains| == 0 && |bs| == 0;
      turns, ws := [], [w];
      PlayedNothing(cfg, Xyk.PairId(AssetPair(p.0, p.1)), w);
    } else {
      SortedLaws(mains, 0);
      SortedLaws(bs, 0);
      turns, ws := PairTurns(cfg, w, Xyk.PairId(AssetPair(p.0, p.1)), Sorted(mains), Sorted(bs), w');
      PlayedWorlds(cfg, Xyk.PairId(AssetPair(p.0, p.1)), turns, ws);
    }
  }

  lemma PlayedNothing(cfg: Xyk.Config, pool: AccountId, w: World)
    ensures Played(cfg, pool, [], [w])
  {
  }

  /** A whole block: pair after pair, every queued intention has its turn. */
  lemma {:induction false} BlockTurns(cfg: Xyk.Config, w: World, q: Queue, order: seq<Pair>, w': World)
    returns (plays: seq<(seq<Turn>, seq<World>)>, ws: seq<World>)
    requires Consistent(q) && (forall p :: p in order ==> p in q.counts) && FinalizedIn(cfg, w, q, order) == Some(w')
    ensures |plays| == |order| && |ws| == |order| + 1 && ws[0] == w && ws[|order|] == w'
    ensures forall i :: 0 <= i < |order| ==>
              PairResolved(cfg, q, order[i], ws[i], plays[i].0, plays[i].1, ws[i + 1])
    decreases |order|
  {
    hide FinalizedPair, PairResolved, Consistent;
    if order == [] {
      plays, ws := [], [w];
    } else {
      var n := |order| - 1;
      var w1 := FinalizedIn(cfg, w, q, order[..n]).value;
      var before, worlds := BlockTurns(cfg, w, q, order[..n], w1);
      assert order[n] in order;
      var turns, through := PairTakesTurns(cfg, w1, q, order[n], w');
      plays, ws := before + [(turns, through)], worlds + [w'];
    }
  }
}
