/** Rounds of matching in plain numbers: exactly when a round trades, what it moves, and that every partner of a group
    has its round. */
module MatchingRounds {
  import opened Basics
  import opened Ledgers
  import opened Direct
  import opened DirectAmounts
  import opened Matching
  import opened MatchingReserves
  import Xyk
  import XykPools
  import MatchingLaws
  import MatchingSafety

  /** `i` accepts to give `given` and get `got`. */
  predicate Accepts(i: Intention, given: nat, got: nat) {
    (i.isSell ==> got >= i.tradeLimit) && (!i.isSell ==> given <= i.tradeLimit)
  }

  /** What remains of `b` for the market maker when it gives all that `a` asks for and gets all that `a` gives. */
  function Remainder(b: Intention, a: Intention): Intention
    requires a.amountIn <= b.amountOut && a.amountOut <= b.amountIn
  {
    b.(amountIn := b.amountIn - a.amountOut, amountOut := b.amountOut - a.amountIn,
       tradeLimit := SaturatingSub(b.tradeLimit, if b.isSell then a.amountIn else a.amountOut))
  }

  /** The market maker's leg of a partly matched `b`, on the ledger in which both sides have been reserved. */
  function MakerLeg(cfg: Xyk.Config, w: World, pool: AccountId, a: Intention, b: Intention)
    : Result<(Ledger, Ledger), Xyk.Error>
    requires a.amountIn <= b.amountOut && a.amountOut <= b.amountIn
  {
    var t :- Validated(cfg, w.amm, Remainder(b, a));
    var l1 := Prepared(cfg, w.amm.ledger, a, b, pool, a.amountIn, a.amountOut).0;
    var l2 :- AmmExecuted(cfg, l1, b.isSell, t);
    Ok((l1, l2))
  }

  /** Whether a round trades. If the partner wants less than is left, its own limit decides; if it wants as much, also
      the main intention's; if it wants more, the market maker has to take the rest of it. And both sides must be able
      to pay. */
  predicate Trades(cfg: Xyk.Config, w: World, pool: AccountId, main: Intention, a: Intention, b: Intention) {
    var (fromA, fromB) := RoundAmounts(a, b);
    && Affordable(cfg, w.amm.ledger, a, b, fromA, fromB)
    && if a.amountIn > b.amountOut then Accepts(b, b.amountIn, b.amountOut)
       else if a.amountIn == b.amountOut
       then Accepts(main, a.amountIn, b.amountIn) && Accepts(b, b.amountIn, b.amountOut)
       else a.amountOut <= b.amountIn && MakerLeg(cfg, w, pool, a, b).Ok?
  }

  /** What the market maker's leg of a round added to an account. */
  function MakerGain(cfg: Xyk.Config, w: World, pool: AccountId, a: Intention, b: Intention, who: AccountId,
                     asset: AssetId): int
  {
    if a.amountIn < b.amountOut && a.amountOut <= b.amountIn && MakerLeg(cfg, w, pool, a, b).Ok? then
      var (l1, l2) := MakerLeg(cfg, w, pool, a, b).value;
      Free(l2, asset, who) - Free(l1, asset, who)
    else 0
  }

  /** A round that trades: reported last as a direct trade of the amounts, every free balance changed by what the direct
      trade and the market maker's leg add, and the main intention left with that much less to give. */
  ghost predicate TradedRound(cfg: Xyk.Config, pool: AccountId, w: World, a: Intention, b: Intention, w': World,
                              a': Intention)
    requires cfg.feeDenominator > 0
  {
    var (fromA, fromB) := RoundAmounts(a, b);
    && |w'.log| > |w.log| && w'.log[|w'.log| - 1] == DirectTrade(a.id, b.id, fromA, fromB)
    && |w'.log| == |w.log| + (if a.amountIn < b.amountOut then 2 else 1)
    && fromA <= a.amountIn && a'.amountIn == a.amountIn - fromA
    && (forall who, asset {:trigger Free(w'.amm.ledger, asset, who)} ::
          Free(w'.amm.ledger, asset, who) == Free(w.amm.ledger, asset, who) +
            SwapGain(cfg, a, b, pool, fromA, fromB, who, asset) + MakerGain(cfg, w, pool, a, b, who, asset))
  }

  /** One round, whatever it does: it trades exactly under the condition above, and otherwise nothing is reported,
      nothing less is left, and unless a reservation is stranded no balance of anybody changes. */
  ghost predicate RoundOf(cfg: Xyk.Config, pool: AccountId, main: Intention, w: World, a: Intention, b: Intention,
                          w': World, a': Intention)
  {
    if Trades(cfg, w, pool, main, a, b) then TradedRound(cfg, pool, w, a, b, w', a')
    else
      && w'.log == w.log && a' == a
      && (Strands(cfg, w, main, a, b) || SameBalances(w.amm.ledger, w'.amm.ledger))
  }

  lemma SettledRound(cfg: Xyk.Config, w: World, pool: AccountId, a: Intention, b: Intention, fromA: nat, fromB: nat)
    requires Opposed(a, b) && !pool.User?
    ensures var (w', ok) := Settled(cfg, w, pool, a, b, fromA, fromB);
            && (ok <==> Affordable(cfg, w.amm.ledger, a, b, fromA, fromB))
            && (!ok ==>
                  && w'.log == w.log
                  && (HalfReserved(cfg, w.amm.ledger, a, b, fromA, fromB) || SameBalances(w.amm.ledger, w'.amm.ledger)))
            && (ok ==>
                  && w'.log == w.log + [DirectTrade(a.id, b.id, fromA, fromB)] && cfg.feeDenominator > 0
                  && forall who, asset {:trigger Free(w'.amm.ledger, asset, who)} ::
                       Free(w'.amm.ledger, asset, who) ==
                       Free(w.amm.ledger, asset, who) + SwapGain(cfg, a, b, pool, fromA, fromB, who, asset))
  {
    hide Prepared, Executed, Free, SwapGain, Affordable, HalfReserved, SameBalances;
    PreparedIffAffordable(cfg, w.amm.ledger, a, b, pool, fromA, fromB);
    var (l, legs) := Prepared(cfg, w.amm.ledger, a, b, pool, fromA, fromB);
    if legs.None? {
      FailedPrepareUnchangedIff(cfg, w.amm.ledger, a, b, pool, fromA, fromB, l);
    } else {
      DenominatorPositive(cfg, w.amm.ledger, a, b, fromA, fromB);
      forall who, asset
        ensures Free(Executed(l, legs.value), asset, who) ==
                Free(w.amm.ledger, asset, who) + SwapGain(cfg, a, b, pool, fromA, fromB, who, asset)
      {
        SwapExact(cfg, w.amm.ledger, a, b, pool, fromA, fromB, l, legs.value, who, asset);
      }
    }
  }

  lemma DenominatorPositive(cfg: Xyk.Config, l: Ledger, a: Intention, b: Intention, fromA: nat, fromB: nat)
    requires Affordable(cfg, l, a, b, fromA, fromB)
    ensures cfg.feeDenominator > 0
  {
  }

  lemma SameAsBefore(l: Ledger)
    ensures SameBalances(l, l)
  {
  }

  /** The partner wants no more than is left. */
  lemma PlainRound(cfg: Xyk.Config, w: World, pool: AccountId, main: Intention, a: Intention, b: Intention, w': World,
                   a': Intention)
    requires Opposed(a, b) && !pool.User? && a.amountIn >= b.amountOut
    requires Matched(cfg, w, pool, main, a, b) == Some((w', a'))
    ensures RoundOf(cfg, pool, main, w, a, b, w', a')
  {
    hide Settled, Affordable, SwapGain, Free, HalfReserved, SameBalances;
    SameAsBefore(w.amm.ledger);
    var (fromA, fromB) := RoundAmounts(a, b);
    SettledRound(cfg, w, pool, a, b, fromA, fromB);
  }

  /** The market maker leaves reserves alone. */
  lemma MakerReserves(cfg: Xyk.Config, w: World, pool: AccountId, a: Intention, b: Intention)
    requires XykPools.Inv(cfg, w.amm) && a.amountIn <= b.amountOut && a.amountOut <= b.amountIn
    requires MakerLeg(cfg, w, pool, a, b).Ok?
    ensures var (l1, l2) := MakerLeg(cfg, w, pool, a, b).value; l2.reserved == l1.reserved
  {
    hide XykPools.Inv, Validated, AmmExecuted, Prepared, MatchingSafety.Kept;
    var rest := Remainder(b, a);
    var t := Validated(cfg, w.amm, rest).value;
    var (l1, l2) := MakerLeg(cfg, w, pool, a, b).value;
    MatchingSafety.PreparedPoolsAlone(cfg, w.amm.ledger, a, b, pool, a.amountIn, a.amountOut);
    MatchingSafety.AmmKept(cfg, w.amm, l1, rest, t, l2);
  }

  lemma RevertedSame(cfg: Xyk.Config, l: Ledger, a: Intention, b: Intention, pool: AccountId, fromA: nat, fromB: nat,
                     l': Ledger, legs: seq<Leg>)
    requires Opposed(a, b) && !pool.User? && Prepared(cfg, l, a, b, pool, fromA, fromB) == (l', Some(legs))
    ensures SameBalances(l, Reverted(l', legs))
  {
    hide Prepared, Reverted, Free, Reserved;
    forall who, asset
      ensures Free(Reverted(l', legs), asset, who) == Free(l, asset, who)
      ensures Reserved(Reverted(l', legs), asset, who) == Reserved(l, asset, who)
    {
      PrepareRevertExact(cfg, l, a, b, pool, fromA, fromB, l', legs, who, asset);
    }
  }

  lemma PartlyRound(cfg: Xyk.Config, w: World, pool: AccountId, a: Intention, b: Intention, t: Xyk.AmmTransfer)
    requires XykPools.Inv(cfg, w.amm) && Opposed(a, b) && !pool.User?
    requires a.amountIn < b.amountOut && a.amountOut <= b.amountIn && Validated(cfg, w.amm, Remainder(b, a)) == Ok(t)
    ensures var (w', ok) := PartlySettled(cfg, w, pool, a, b, t);
            && (ok <==>
                  Affordable(cfg, w.amm.ledger, a, b, a.amountIn, a.amountOut) && MakerLeg(cfg, w, pool, a, b).Ok?)
            && (!ok ==>
                  && w'.log == w.log
                  && (|| HalfReserved(cfg, w.amm.ledger, a, b, a.amountIn, a.amountOut)
                      || SameBalances(w.amm.ledger, w'.amm.ledger)))
            && (ok ==>
                  && w'.log == w.log + [AmmTrade(b.id, b.isSell, t), DirectTrade(a.id, b.id, a.amountIn, a.amountOut)]
                  && cfg.feeDenominator > 0
                  && forall who, asset {:trigger Free(w'.amm.ledger, asset, who)} ::
                       Free(w'.amm.ledger, asset, who) == Free(w.amm.ledger, asset, who) +
                         SwapGain(cfg, a, b, pool, a.amountIn, a.amountOut, who, asset) +
                         MakerGain(cfg, w, pool, a, b, who, asset))
  {
    hide XykPools.Inv, Prepared, Executed, Reverted, Free, SwapGain, Affordable, Validated, AmmExecuted, HalfReserved,
         SameBalances;
    PreparedIffAffordable(cfg, w.amm.ledger, a, b, pool, a.amountIn, a.amountOut);
    var (l1, legs) := Prepared(cfg, w.amm.ledger, a, b, pool, a.amountIn, a.amountOut);
    if legs.None? {
      FailedPrepareUnchangedIff(cfg, w.amm.ledger, a, b, pool, a.amountIn, a.amountOut, l1);
    } else if MakerLeg(cfg, w, pool, a, b).Err? {
      RevertedSame(cfg, w.amm.ledger, a, b, pool, a.amountIn, a.amountOut, l1, legs.value);
    } else {
      DenominatorPositive(cfg, w.amm.ledger, a, b, a.amountIn, a.amountOut);
      MakerReserves(cfg, w, pool, a, b);
      var l2 := MakerLeg(cfg, w, pool, a, b).value.1;
      forall who, asset
        ensures Free(Executed(l2, legs.value), asset, who) == Free(w.amm.ledger, asset, who) +
                  SwapGain(cfg, a, b, pool, a.amountIn, a.amountOut, who, asset) +
                  (Free(l2, asset, who) - Free(l1, asset, who))
      {
        SwapOverExact(cfg, w.amm.ledger, a, b, pool, a.amountIn, a.amountOut, l1, legs.value, l2, who, asset);
      }
    }
  }

  /** A round trades exactly under the condition stated, moves exactly those amounts, and otherwise trades nothing. */
  lemma RoundTradesIff(cfg: Xyk.Config, w: World, pool: AccountId, main: Intention, a: Intention, b: Intention,
                       w': World, a': Intention)
    requires XykPools.Inv(cfg, w.amm) && Opposed(a, b) && !pool.User?
    requires Matched(cfg, w, pool, main, a, b) == Some((w', a'))
    ensures RoundOf(cfg, pool, main, w, a, b, w', a')
  {
    hide XykPools.Inv, Validated, PartlySettled, Settled, Affordable, SwapGain, Free, MakerLeg, MakerGain, HalfReserved,
         SameBalances;
    SameAsBefore(w.amm.ledger);
    if a.amountIn >= b.amountOut {
      PlainRound(cfg, w, pool, main, a, b, w', a');
    } else {
      assert RestOf(b, a) == Remainder(b, a);
      var v := Validated(cfg, w.amm, Remainder(b, a));
      if v.Ok? {
        PartlyRound(cfg, w, pool, a, b, v.value);
      } else {
        NoMakerLeg(cfg, w, pool, a, b);
      }
    }
  }

  lemma NoMakerLeg(cfg: Xyk.Config, w: World, pool: AccountId, a: Intention, b: Intention)
    requires a.amountIn <= b.amountOut && a.amountOut <= b.amountIn && Validated(cfg, w.amm, Remainder(b, a)).Err?
    ensures MakerLeg(cfg, w, pool, a, b).Err?
  {
    hide Validated;
  }

  /** Every partner of a group has its round, in order, on what the rounds before it left. */
  lemma {:induction false} GroupInTurn(cfg: Xyk.Config, w: World, pool: AccountId, main: Intention,
                                       group: seq<Intention>, w': World, a: Intention)
    returns (ws: seq<World>, lefts: seq<Intention>)
    requires Xyk.Lawful(cfg) && XykPools.Inv(cfg, w.amm) && !pool.User? && (forall b :: b in group ==> Opposed(main, b))
    requires MatchedAll(cfg, w, pool, main, group) == Some((w', a))
    ensures |ws| == |lefts| == |group| + 1 && ws[0] == w && lefts[0] == main
    ensures ws[|group|] == w' && lefts[|group|] == a
    ensures forall j :: 0 <= j < |group| ==>
              RoundOf(cfg, pool, main, ws[j], lefts[j], group[j], ws[j + 1], lefts[j + 1])
    decreases |group|
  {
    hide Xyk.Lawful, XykPools.Inv, Matched, RoundOf;
    if group == [] {
      ws, lefts := [w], [main];
    } else {
      var n := |group| - 1;
      var (w1, a1) := MatchedAll(cfg, w, pool, main, group[..n]).value;
      var worlds, rests := GroupInTurn(cfg, w, pool, main, group[..n], w1, a1);
      MatchingSafety.MatchedAllSettles(cfg, w, pool, main, group[..n], w1, a1);
      MatchingLaws.MainFill(cfg, w, pool, main, group[..n], w1, a1);
      assert group[n] in group;
      RoundTradesIff(cfg, w1, pool, main, a1, group[n], w', a);
      ws, lefts := worlds + [w'], rests + [a];
    }
  }
}
