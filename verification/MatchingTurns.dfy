/** That every intention of a pair gets its turn, and what a turn is: passed over because the market maker would not
    take it, matched with a group, or traded with the market maker alone. The market maker's part is stated with its
    own calls. */
module MatchingTurns {
  import opened Basics
  import opened Ledgers
  import opened Direct
  import opened Matching
  import opened MatchingLaws
  import Xyk

  /** The intention as a call to the market maker. */
  function MarketCall(cfg: Xyk.Config, s: Xyk.State, i: Intention): Result<Xyk.State, Xyk.Error> {
    if i.isSell then Xyk.Sell(cfg, s, i.who, i.assets, i.amountIn, i.tradeLimit, i.discount)
    else Xyk.Buy(cfg, s, i.who, i.assets, i.amountOut, i.tradeLimit, i.discount)
  }

  /** The event that reports the trade of `i` with the market maker. */
  predicate Reports(e: Event, i: Intention) {
    && e.AmmTrade? && e.id == i.id && e.isSell == i.isSell
    && e.transfer.origin == i.who && e.transfer.assets == i.assets
    && e.transfer.amount == if i.isSell then i.amountIn else i.amountOut
  }

  /** `i` was sent to the market maker: the call was made and reported by one event, or it failed and nothing
      changed. */
  predicate TradedAlone(cfg: Xyk.Config, w: World, i: Intention, w': World) {
    match MarketCall(cfg, w.amm, i)
    case Err(_) => w' == w
    case Ok(s) =>
      && w'.amm == s && |w'.log| == |w.log| + 1 && w'.log[..|w.log|] == w.log
      && Reports(w'.log[|w.log|], i)
  }

  lemma SingleIsCall(cfg: Xyk.Config, w: World, i: Intention)
    ensures TradedAlone(cfg, w, i, ResolvedSingle(cfg, w, i))
  {
    hide Xyk.ValidateSell, Xyk.ValidateBuy, Xyk.ExecuteSell, Xyk.ExecuteBuy;
    var v := Validated(cfg, w.amm, i);
    if v.Ok? {
      ValidatedOk(cfg, w.amm, i, v.value);
    }
  }

  lemma ValidatedOk(cfg: Xyk.Config, s: Xyk.State, i: Intention, t: Xyk.AmmTransfer)
    requires Validated(cfg, s, i) == Ok(t)
    ensures t.origin == i.who && t.assets == i.assets && t.amount == if i.isSell then i.amountIn else i.amountOut
  {
    ValidatedAmount(cfg, s, i, t);
  }

  // Turns.

  datatype Turn =
    | PassedOver(main: Intention)
    | WithGroup(main: Intention, group: seq<Intention>)
    | Alone(i: Intention)

  /** The main intentions of some turns, in order. */
  function MainsOf(turns: seq<Turn>): seq<Intention>
    decreases |turns|
  {
    if turns == [] then []
    else (if turns[0].Alone? then [] else [turns[0].main]) + MainsOf(turns[1..])
  }

  /** The intentions matched with them or left over, in order. */
  function PartnersOf(turns: seq<Turn>): seq<Intention>
    decreases |turns|
  {
    if turns == [] then []
    else (match turns[0]
          case PassedOver(_) => []
          case WithGroup(_, group) => group
          case Alone(i) => [i]) + PartnersOf(turns[1..])
  }

  /** What a group asks for in all. */
  function Wanted(group: seq<Intention>): nat
    decreases |group|
  {
    if group == [] then 0 else group[0].amountOut + Wanted(group[1..])
  }

  /** The shortest group that uses up `amount`, or all there is. */
  predicate Covers(group: seq<Intention>, amount: nat, behind: seq<Intention>) {
    && (forall n :: 0 <= n < |group| ==> Wanted(group[..n]) < amount)
    && (amount <= Wanted(group) || behind == [])
  }

  /** A turn from `w` to `w'` with the partners `behind` still to come. */
  predicate Took(cfg: Xyk.Config, pool: AccountId, w: World, turn: Turn, behind: seq<Intention>, w': World) {
    match turn
    case PassedOver(main) => w' == w && MarketCall(cfg, w.amm, main).Err?
    case WithGroup(main, group) =>
      && Validated(cfg, w.amm, main).Ok? && Covers(group, main.amountIn, behind)
      && ResolvedMatched(cfg, w, pool, main, group) == Some(w')
    case Alone(i) => TradedAlone(cfg, w, i, w')
  }

  /** The turns were taken one after the other, through the worlds `ws`. */
  ghost predicate Played(cfg: Xyk.Config, pool: AccountId, turns: seq<Turn>, ws: seq<World>) {
    && |ws| == |turns| + 1
    && forall j :: 0 <= j < |turns| ==> Took(cfg, pool, ws[j], turns[j], PartnersOf(turns[j + 1..]), ws[j + 1])
  }

  lemma PlayedFirst(cfg: Xyk.Config, pool: AccountId, w: World, turn: Turn, turns: seq<Turn>, ws: seq<World>)
    requires Played(cfg, pool, turns, ws) && Took(cfg, pool, w, turn, PartnersOf(turns), ws[0])
    ensures Played(cfg, pool, [turn] + turns, [w] + ws)
  {
    hide Took, PartnersOf;
    var all, worlds := [turn] + turns, [w] + ws;
    forall j | 0 <= j < |all|
      ensures Took(cfg, pool, worlds[j], all[j], PartnersOf(all[j + 1..]), worlds[j + 1])
    {
      if j == 0 {
        assert all[1..] == turns;
      } else {
        assert all[j + 1..] == turns[j - 1 + 1..];
        assert Took(cfg, pool, ws[j - 1], turns[j - 1], PartnersOf(turns[j - 1 + 1..]), ws[j - 1 + 1]);
      }
    }
  }

  lemma {:induction false} WantedShort(bs: seq<Intention>, amount: nat)
    ensures Covers(bs[..GroupLen(bs, amount)], amount, bs[GroupLen(bs, amount)..])
    decreases |bs|
  {
    var n := GroupLen(bs, amount);
    if bs != [] && amount != 0 {
      var left := SaturatingSub(amount, bs[0].amountOut);
      WantedShort(bs[1..], left);
      var group, rest := bs[..n], bs[1..][..n - 1];
      assert group[1..] == rest && group[0] == bs[0] && bs[n..] == bs[1..][n - 1..];
      forall m | 0 <= m < n
        ensures Wanted(group[..m]) < amount
      {
        if m > 0 {
          assert group[..m][1..] == rest[..m - 1];
        }
      }
    }
  }

  /** What is left over is traded one by one, in order. */
  lemma {:induction false} EachAlone(cfg: Xyk.Config, pool: AccountId, w: World, rest: seq<Intention>)
    returns (turns: seq<Turn>, ws: seq<World>)
    ensures |turns| == |rest| && (forall j :: 0 <= j < |rest| ==> turns[j] == Alone(rest[j]))
    ensures Played(cfg, pool, turns, ws) && ws[0] == w && ws[|turns|] == ResolvedEach(cfg, w, rest)
    decreases |rest|
  {
    hide ResolvedSingle, TradedAlone, PartnersOf;
    if rest == [] {
      turns, ws := [], [w];
    } else {
      var n := |rest| - 1;
      var before, worlds := EachAlone(cfg, pool, w, rest[..n]);
      SingleIsCall(cfg, worlds[n], rest[n]);
      turns, ws := before + [Alone(rest[n])], worlds + [ResolvedSingle(cfg, worlds[n], rest[n])];
      forall j | 0 <= j < |turns|
        ensures Took(cfg, pool, ws[j], turns[j], PartnersOf(turns[j + 1..]), ws[j + 1])
      {
        if j < n {
          assert Took(cfg, pool, worlds[j], before[j], PartnersOf(before[j + 1..]), worlds[j + 1]);
        }
      }
    }
  }

  lemma {:induction false} AloneOrder(turns: seq<Turn>, rest: seq<Intention>)
    requires |turns| == |rest| && (forall j :: 0 <= j < |rest| ==> turns[j] == Alone(rest[j]))
    ensures MainsOf(turns) == [] && PartnersOf(turns) == rest
    decreases |rest|
  {
    if rest != [] {
      AloneOrder(turns[1..], rest[1..]);
      assert rest == [rest[0]] + rest[1..];
    }
  }

  /** Every intention of a pair has exactly one turn. The main intentions come in order, each passed over if the market
      maker would refuse it and otherwise matched with the shortest run of partners that uses it up; the partners come
      in order too, in those groups and, behind the last of them, one by one to the market maker. */
  lemma {:induction false} PairTurns(cfg: Xyk.Config, w: World, pool: AccountId, mains: seq<Intention>,
                                     bs: seq<Intention>, w': World) returns (turns: seq<Turn>, ws: seq<World>)
    requires ProcessedFrom(cfg, w, pool, mains, bs) == Some(w')
    ensures Played(cfg, pool, turns, ws) && ws[0] == w && ws[|turns|] == w'
    ensures MainsOf(turns) == mains && PartnersOf(turns) == bs
    decreases |mains|
  {
    hide Validated, ResolvedMatched, ResolvedEach, Played, Covers, GroupLen, TradedAlone, MarketCall;
    if mains == [] {
      turns, ws := EachAlone(cfg, pool, w, bs);
      AloneOrder(turns, bs);
    } else {
      var turn: Turn, next, behind := PassedOver(mains[0]), w, bs;
      if Validated(cfg, w.amm, mains[0]).Ok? {
        var n := GroupLen(bs, mains[0].amountIn);
        WantedShort(bs, mains[0].amountIn);
        turn, behind := WithGroup(mains[0], bs[..n]), bs[n..];
        next := ResolvedMatched(cfg, w, pool, mains[0], bs[..n]).value;
        assert bs == bs[..n] + bs[n..];
      } else {
        RefusedIsCall(cfg, w.amm, mains[0]);
      }
      var later, worlds := PairTurns(cfg, next, pool, mains[1..], behind, w');
      PlayedWorlds(cfg, pool, later, worlds);
      PlayedFirst(cfg, pool, w, turn, later, worlds);
      turns, ws := [turn] + later, [w] + worlds;
      assert turns[1..] == later && mains == [mains[0]] + mains[1..];
    }
  }

  lemma PlayedWorlds(cfg: Xyk.Config, pool: AccountId, turns: seq<Turn>, ws: seq<World>)
    requires Played(cfg, pool, turns, ws)
    ensures |ws| == |turns| + 1
  {
  }

  lemma RefusedIsCall(cfg: Xyk.Config, s: Xyk.State, i: Intention)
    requires Validated(cfg, s, i).Err?
    ensures MarketCall(cfg, s, i).Err?
  {
    hide Xyk.ValidateSell, Xyk.ValidateBuy;
  }

  /** Without main intentions a pair is its other side, in falling order of amounts, each sent to the market maker. */
  lemma OneSideInTurn(cfg: Xyk.Config, w: World, pool: AccountId, bs: seq<Intention>, w': World)
    returns (order: seq<Intention>, ws: seq<World>)
    requires Processed(cfg, w, pool, [], bs) == Some(w')
    ensures Descending(order) && multiset(order) == multiset(bs)
    ensures |ws| == |order| + 1 && ws[0] == w && ws[|order|] == w'
    ensures forall j :: 0 <= j < |order| ==> TradedAlone(cfg, ws[j], order[j], ws[j + 1])
  {
    hide ResolvedEach, TradedAlone, Sorted;
    order := Sorted(bs);
    SortedLaws(bs, 0);
    NothingSorted();
    var turns, worlds := EachAlone(cfg, pool, w, order);
    ws := worlds;
    forall j | 0 <= j < |order|
      ensures TradedAlone(cfg, ws[j], order[j], ws[j + 1])
    {
      assert Took(cfg, pool, ws[j], turns[j], PartnersOf(turns[j + 1..]), ws[j + 1]);
    }
  }

  lemma NothingSorted()
    ensures Sorted([]) == []
  {
  }
}
