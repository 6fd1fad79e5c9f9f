/** Reserved balances through a block: every round leaves them as they were, except exactly those in which the second of
    two reservations failed, and what such a round leaves reserved stays so. */
module MatchingReserves {
  import opened Basics
  import opened Ledgers
  import opened Direct
  import opened Matching
  import opened MatchingLaws
  import opened MatchingSafety
  import Xyk
  import opened XykPools

  /** The amounts a round tries to settle directly. */
  function RoundAmounts(a: Intention, b: Intention): (nat, nat) {
    if a.amountIn > b.amountOut then (b.amountOut, b.amountIn)
    else if a.amountIn < b.amountOut then (a.amountIn, a.amountOut)
    else (a.amountIn, b.amountIn)
  }

  ghost predicate SameReserved(l: Ledger, l': Ledger) { forall x, k :: Reserved(l', x, k) == Reserved(l, x, k) }

  lemma SettledFrees(cfg: Xyk.Config, w: World, pool: AccountId, a: Intention, b: Intention, fromA: nat, fromB: nat)
    requires Opposed(a, b) && !pool.User? && !HalfReserved(cfg, w.amm.ledger, a, b, fromA, fromB)
    ensures SameReserved(w.amm.ledger, Settled(cfg, w, pool, a, b, fromA, fromB).0.amm.ledger)
  {
    hide Prepared, Executed, HalfReserved, Free, Reserved, Held, Fee, Brought, Supply;
    var (l, legs) := Prepared(cfg, w.amm.ledger, a, b, pool, fromA, fromB);
    match legs
    case None =>
      FailedPrepareUnchangedIff(cfg, w.amm.ledger, a, b, pool, fromA, fromB, l);
    case Some(legs) =>
      forall x, k
        ensures Reserved(Executed(l, legs), x, k) == Reserved(w.amm.ledger, x, k)
      {
        PrepareExecuteExact(cfg, w.amm.ledger, a, b, pool, fromA, fromB, l, legs, k, x);
      }
  }

  lemma PartlyFrees(cfg: Xyk.Config, w: World, pool: AccountId, a: Intention, b: Intention, rest: Intention,
                    t: Xyk.AmmTransfer)
    requires Opposed(a, b) && !pool.User? && !HalfReserved(cfg, w.amm.ledger, a, b, a.amountIn, a.amountOut)
    requires Inv(cfg, w.amm) && Validated(cfg, w.amm, rest) == Ok(t) && rest.isSell == b.isSell
    ensures SameReserved(w.amm.ledger, PartlySettled(cfg, w, pool, a, b, t).0.amm.ledger)
  {
    hide Prepared, Executed, Reverted, HalfReserved, Free, Held, Fee, Supply, AmmExecuted, Inv, Validated, Kept, Taken,
         Brought;
    var (l, legs) := Prepared(cfg, w.amm.ledger, a, b, pool, a.amountIn, a.amountOut);
    match legs
    case None =>
      FailedPrepareUnchangedIff(cfg, w.amm.ledger, a, b, pool, a.amountIn, a.amountOut, l);
    case Some(legs) =>
      match AmmExecuted(cfg, l, b.isSell, t)
      case Err(_) =>
        forall x, k
          ensures Reserved(Reverted(l, legs), x, k) == Reserved(w.amm.ledger, x, k)
        {
          PrepareRevertExact(cfg, w.amm.ledger, a, b, pool, a.amountIn, a.amountOut, l, legs, k, x);
        }
      case Ok(l') =>
        PreparedPoolsAlone(cfg, w.amm.ledger, a, b, pool, a.amountIn, a.amountOut);
        AmmKept(cfg, w.amm, l, rest, t, l');
        PreparedCovers(cfg, w.amm.ledger, a, b, pool, a.amountIn, a.amountOut, l, legs);
        CoveredByReserved(l, l', legs);
        forall x, k
          ensures Reserved(Executed(l', legs), x, k) == Reserved(w.amm.ledger, x, k)
        {
          PreparedHolds(cfg, w.amm.ledger, a, b, pool, a.amountIn, a.amountOut, l, legs, k, x);
          ExecutedExact(l', legs, k, x);
        }
  }

  /** The round gets as far as preparing a direct trade. */
  predicate Prepares(cfg: Xyk.Config, w: World, main: Intention, a: Intention, b: Intention) {
    if a.amountIn > b.amountOut then WithinLimit(b, b.amountIn, b.amountOut)
    else if a.amountIn < b.amountOut then a.amountOut <= b.amountIn && Validated(cfg, w.amm, RestOf(b, a)).Ok?
    else WithinLimit(main, a.amountIn, b.amountIn) && WithinLimit(b, b.amountIn, a.amountIn)
  }

  /** The round prepares, and only the first of the two reservations is made. */
  predicate Strands(cfg: Xyk.Config, w: World, main: Intention, a: Intention, b: Intention) {
    var (fromA, fromB) := RoundAmounts(a, b);
    Prepares(cfg, w, main, a, b) && HalfReserved(cfg, w.amm.ledger, a, b, fromA, fromB)
  }

  ghost predicate ReservedGrew(l: Ledger, l': Ledger) {
    forall x, k {:trigger Reserved(l', x, k)} :: Reserved(l, x, k) <= Reserved(l', x, k)
  }

  /** Where the round strands, its ledger is that of the failed preparation. */
  lemma StrandedLedger(cfg: Xyk.Config, w: World, pool: AccountId, main: Intention, a: Intention, b: Intention,
                       w': World, a': Intention)
    requires Opposed(a, b) && Matched(cfg, w, pool, main, a, b) == Some((w', a')) && Strands(cfg, w, main, a, b)
    ensures var (fromA, fromB) := RoundAmounts(a, b);
            w'.amm.ledger == Prepared(cfg, w.amm.ledger, a, b, pool, fromA, fromB).0
  {
    hide Prepared, Executed, HalfReserved, Validated, AmmExecuted, HoldA, Free;
    var (fromA, fromB) := RoundAmounts(a, b);
    HalfReservedStrands(cfg, w.amm.ledger, a, b, pool, fromA, fromB);
  }

  lemma StrandedGrew(cfg: Xyk.Config, l: Ledger, a: Intention, b: Intention, pool: AccountId, fromA: nat, fromB: nat)
    requires Opposed(a, b) && HalfReserved(cfg, l, a, b, fromA, fromB)
    ensures var l' := Prepared(cfg, l, a, b, pool, fromA, fromB).0; ReservedGrew(l, l') && !SameReserved(l, l')
  {
    hide Fee, Legs;
    HalfReservedStrands(cfg, l, a, b, pool, fromA, fromB);
    var hold := HoldA(cfg, a, fromA);
    var l' := Prepared(cfg, l, a, b, pool, fromA, fromB).0;
    assert l' == Reserve(l, a.assets.assetIn, User(a.who), hold).value by {
      ReserveMoves(l, a.assets.assetIn, User(a.who), hold, a.assets.assetOut, User(b.who));
    }
    hide Prepared, HalfReserved, HoldA;
    forall x, k
      ensures Reserved(l, x, k) <= Reserved(l', x, k)
    {
      ReserveMoves(l, a.assets.assetIn, User(a.who), hold, x, k);
    }
    hide Free, Reserve, Reserved;
    assert Reserved(l', a.assets.assetIn, User(a.who)) != Reserved(l, a.assets.assetIn, User(a.who));
  }

  /** A round leaves every reserved balance as it was, whichever way it ends, exactly unless it prepares and only the
      second of its two reservations fails; and it never lowers one. */
  lemma RoundFreesReservesIff(cfg: Xyk.Config, w: World, pool: AccountId, main: Intention, a: Intention, b: Intention,
                              w': World, a': Intention)
    requires Inv(cfg, w.amm) && Opposed(a, b) && !pool.User? && Matched(cfg, w, pool, main, a, b) == Some((w', a'))
    ensures SameReserved(w.amm.ledger, w'.amm.ledger) <==> !Strands(cfg, w, main, a, b)
    ensures ReservedGrew(w.amm.ledger, w'.amm.ledger)
  {
    hide Settled, PartlySettled, Validated, Inv, HalfReserved, Reserved;
    var (fromA, fromB) := RoundAmounts(a, b);
    if Strands(cfg, w, main, a, b) {
      StrandedLedger(cfg, w, pool, main, a, b, w', a');
      StrandedGrew(cfg, w.amm.ledger, a, b, pool, fromA, fromB);
    } else if Prepares(cfg, w, main, a, b) {
      if a.amountIn < b.amountOut {
        PartlyFrees(cfg, w, pool, a, b, RestOf(b, a), Validated(cfg, w.amm, RestOf(b, a)).value);
      } else {
        SettledFrees(cfg, w, pool, a, b, fromA, fromB);
      }
    }
  }

  // Groups, pairs and blocks.

  /** No round of the group strands a reservation. */
  predicate CleanGroup(cfg: Xyk.Config, w: World, pool: AccountId, main: Intention, group: seq<Intention>)
    decreases |group|
  {
    group != [] ==>
      && CleanGroup(cfg, w, pool, main, group[..|group| - 1])
      && match MatchedAll(cfg, w, pool, main, group[..|group| - 1])
         case None => true
         case Some((w', a)) => !Strands(cfg, w', main, a, group[|group| - 1])
  }

  /** Keeping reserves over two steps is keeping them over each, since no step lowers one. */
  lemma ReservedChain(l: Ledger, l1: Ledger, l2: Ledger)
    requires ReservedGrew(l, l1) && ReservedGrew(l1, l2)
    ensures ReservedGrew(l, l2)
    ensures SameReserved(l, l2) <==> SameReserved(l, l1) && SameReserved(l1, l2)
  {
    hide Reserved;
    forall x, k
      ensures Reserved(l, x, k) <= Reserved(l1, x, k) <= Reserved(l2, x, k)
    {
    }
    if SameReserved(l, l2) {
      forall x, k
        ensures Reserved(l1, x, k) == Reserved(l, x, k) && Reserved(l2, x, k) == Reserved(l1, x, k)
      {
        assert Reserved(l2, x, k) == Reserved(l, x, k);
      }
    }
  }

  lemma SameChain(l: Ledger)
    ensures ReservedGrew(l, l) && SameReserved(l, l)
  {
  }

  lemma SingleReserved(cfg: Xyk.Config, w: World, i: Intention)
    requires Inv(cfg, w.amm)
    ensures ReservedGrew(w.amm.ledger, ResolvedSingle(cfg, w, i).amm.ledger)
    ensures SameReserved(w.amm.ledger, ResolvedSingle(cfg, w, i).amm.ledger)
  {
    hide Inv, Validated, AmmExecuted, Kept, Supply, Free;
    SameChain(w.amm.ledger);
    var v := Validated(cfg, w.amm, i);
    if v.Ok? && AmmExecuted(cfg, w.amm.ledger, i.isSell, v.value).Ok? {
      AmmKept(cfg, w.amm, w.amm.ledger, i, v.value, AmmExecuted(cfg, w.amm.ledger, i.isSell, v.value).value);
    }
  }

  ghost predicate AllOpposed(mains: seq<Intention>, bs: seq<Intention>) {
    forall a, b {:trigger Opposed(a, b)} :: a in mains && b in bs ==> Opposed(a, b)
  }

  lemma {:induction false} GroupFreesReservesIff(cfg: Xyk.Config, w: World, pool: AccountId, main: Intention,
                                                 group: seq<Intention>, w': World, a: Intention)
    requires Xyk.Lawful(cfg) && Inv(cfg, w.amm) && !pool.User? && (forall b :: b in group ==> Opposed(main, b))
    requires MatchedAll(cfg, w, pool, main, group) == Some((w', a))
    ensures ReservedGrew(w.amm.ledger, w'.amm.ledger) && Inv(cfg, w'.amm)
    ensures SameReserved(w.amm.ledger, w'.amm.ledger) <==> CleanGroup(cfg, w, pool, main, group)
    decreases |group|
  {
    hide Matched, Inv, Strands, SameReserved, ReservedGrew, Xyk.Lawful, Kept;
    if group == [] {
      SameChain(w.amm.ledger);
    } else {
      var init, b := group[..|group| - 1], group[|group| - 1];
      var (w1, a1) := MatchedAll(cfg, w, pool, main, init).value;
      GroupFreesReservesIff(cfg, w, pool, main, init, w1, a1);
      MainFill(cfg, w, pool, main, init, w1, a1);
      assert Opposed(main, b);
      RoundFreesReservesIff(cfg, w1, pool, main, a1, b, w', a);
      ReservedChain(w.amm.ledger, w1.amm.ledger, w'.amm.ledger);
      MatchedSettles(cfg, w1, pool, main, a1, b, w', a);
    }
  }

  lemma {:induction false} EachReserved(cfg: Xyk.Config, w: World, rest: seq<Intention>)
    requires Xyk.Lawful(cfg) && Inv(cfg, w.amm)
    ensures ReservedGrew(w.amm.ledger, ResolvedEach(cfg, w, rest).amm.ledger)
    ensures SameReserved(w.amm.ledger, ResolvedEach(cfg, w, rest).amm.ledger)
    decreases |rest|
  {
    hide ResolvedSingle, Inv, SameReserved, ReservedGrew, Xyk.Lawful, Kept;
    if rest == [] {
      SameChain(w.amm.ledger);
    } else {
      var w1 := ResolvedEach(cfg, w, rest[..|rest| - 1]);
      EachReserved(cfg, w, rest[..|rest| - 1]);
      EachSettles(cfg, w, rest[..|rest| - 1]);
      SingleReserved(cfg, w1, rest[|rest| - 1]);
      ReservedChain(w.amm.ledger, w1.amm.ledger, ResolvedEach(cfg, w, rest).amm.ledger);
    }
  }

  /** No round of the pair strands a reservation. */
  predicate CleanFrom(cfg: Xyk.Config, w: World, pool: AccountId, mains: seq<Intention>, bs: seq<Intention>)
    decreases |mains|
  {
    if mains == [] then true
    else if Validated(cfg, w.amm, mains[0]).Err? then CleanFrom(cfg, w, pool, mains[1..], bs)
    else
      var n := GroupLen(bs, mains[0].amountIn);
      && CleanGroup(cfg, w, pool, mains[0], bs[..n])
      && match ResolvedMatched(cfg, w, pool, mains[0], bs[..n])
         case None => true
         case Some(w') => CleanFrom(cfg, w', pool, mains[1..], bs[n..])
  }

  lemma ResolvedReserved(cfg: Xyk.Config, w: World, pool: AccountId, main: Intention, group: seq<Intention>, w': World)
    requires Xyk.Lawful(cfg) && Inv(cfg, w.amm) && !pool.User? && (forall b :: b in group ==> Opposed(main, b))
    requires ResolvedMatched(cfg, w, pool, main, group) == Some(w')
    ensures ReservedGrew(w.amm.ledger, w'.amm.ledger)
    ensures SameReserved(w.amm.ledger, w'.amm.ledger) <==> CleanGroup(cfg, w, pool, main, group)
  {
    hide MatchedAll, ResolvedSingle, Inv, SameReserved, ReservedGrew, Xyk.Lawful, CleanGroup;
    var (w1, a) := MatchedAll(cfg, w, pool, main, group).value;
    GroupFreesReservesIff(cfg, w, pool, main, group, w1, a);
    if a.amountIn > 0 {
      SingleReserved(cfg, w1, a);
      ReservedChain(w.amm.ledger, w1.amm.ledger, w'.amm.ledger);
    }
  }

  /** Processing a pair leaves every reserved balance as it was exactly when none of its rounds strands a reservation.
      */
  lemma {:induction false} PairFreesReservesIff(cfg: Xyk.Config, w: World, pool: AccountId, mains: seq<Intention>,
                                                bs: seq<Intention>, w': World)
    requires Xyk.Lawful(cfg) && Inv(cfg, w.amm) && !pool.User? && AllOpposed(mains, bs)
    requires ProcessedFrom(cfg, w, pool, mains, bs) == Some(w')
    ensures ReservedGrew(w.amm.ledger, w'.amm.ledger)
    ensures SameReserved(w.amm.ledger, w'.amm.ledger) <==> CleanFrom(cfg, w, pool, mains, bs)
    decreases |mains|
  {
    hide ResolvedMatched, ResolvedEach, Inv, SameReserved, ReservedGrew, Xyk.Lawful, GroupLen, Validated, CleanGroup,
         Kept, Opposed;
    if mains == [] {
      EachReserved(cfg, w, bs);
    } else if Validated(cfg, w.amm, mains[0]).Err? {
      PairFreesReservesIff(cfg, w, pool, mains[1..], bs, w');
    } else {
      var n := GroupLen(bs, mains[0].amountIn);
      var w1 := ResolvedMatched(cfg, w, pool, mains[0], bs[..n]).value;
      assert forall b :: b in bs[..n] ==> Opposed(mains[0], b);
      ResolvedReserved(cfg, w, pool, mains[0], bs[..n], w1);
      ResolvedMatchedSettles(cfg, w, pool, mains[0], bs[..n], w1);
      PairFreesReservesIff(cfg, w1, pool, mains[1..], bs[n..], w');
      ReservedChain(w.amm.ledger, w1.amm.ledger, w'.amm.ledger);
    }
  }

  // Sellers.

  /** A matched seller has to hold exactly what they give, which is asked for before anything is reserved: such a round
      strands nothing. */
  lemma SellerNeverStrands(cfg: Xyk.Config, w: World, main: Intention, a: Intention, b: Intention)
    requires b.isSell
    ensures !Strands(cfg, w, main, a, b)
  {
    hide Fee, Free, Validated;
  }

  predicate AllSell(s: seq<Intention>) { forall i :: 0 <= i < |s| ==> s[i].isSell }

  lemma {:induction false} SellersKeepGroupClean(cfg: Xyk.Config, w: World, pool: AccountId, main: Intention,
                                                 group: seq<Intention>)
    requires AllSell(group)
    ensures CleanGroup(cfg, w, pool, main, group)
    decreases |group|
  {
    hide Strands, Matched;
    if group != [] {
      var init := group[..|group| - 1];
      SellersKeepGroupClean(cfg, w, pool, main, init);
      var m := MatchedAll(cfg, w, pool, main, init);
      if m.Some? {
        SellerNeverStrands(cfg, m.value.0, main, m.value.1, group[|group| - 1]);
      }
    }
  }

  /** So processing a pair without a buyer on the matched side strands nothing, whoever is on the main side. */
  lemma {:induction false} SellersKeepPairClean(cfg: Xyk.Config, w: World, pool: AccountId, mains: seq<Intention>,
                                                bs: seq<Intention>)
    requires AllSell(bs)
    ensures CleanFrom(cfg, w, pool, mains, bs)
    decreases |mains|
  {
    hide ResolvedMatched, GroupLen, Validated, CleanGroup;
    if mains == [] {
    } else if Validated(cfg, w.amm, mains[0]).Err? {
      SellersKeepPairClean(cfg, w, pool, mains[1..], bs);
    } else {
      var n := GroupLen(bs, mains[0].amountIn);
      SellersKeepGroupClean(cfg, w, pool, mains[0], bs[..n]);
      var r := ResolvedMatched(cfg, w, pool, mains[0], bs[..n]);
      if r.Some? {
        SellersKeepPairClean(cfg, r.value, pool, mains[1..], bs[n..]);
      }
    }
  }
}
