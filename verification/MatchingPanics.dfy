/** The panic of the matching loop: exactly when it happens, in amounts and balances, when it cannot, and an input. */
module MatchingPanics {
  import opened Basics
  import opened Sums
  import opened Rounding
  import opened Ledgers
  import opened Direct
  import opened Matching
  import opened MatchingLaws
  import Xyk

  /** The amounts of `a` and `b` disagree on which is larger, and the round gets to notice: either before anything is
      reserved, or after a direct trade that is within the limit of `b` and that both can afford. */
  predicate Panics(cfg: Xyk.Config, l: Ledger, a: Intention, b: Intention) {
    || (&& a.amountIn > b.amountOut && a.amountOut < b.amountIn
        && WithinLimit(b, b.amountIn, b.amountOut)
        && Sane(cfg, l, a, b, b.amountOut, b.amountIn)
        && HoldA(cfg, a, b.amountOut) <= Free(l, a.assets.assetIn, User(a.who))
        && HoldA(cfg, b, b.amountIn) <= Free(l, a.assets.assetOut, User(b.who)))
    || (a.amountIn < b.amountOut && b.amountIn < a.amountOut)
  }

  lemma MatchedPanicsIff(cfg: Xyk.Config, w: World, pool: AccountId, main: Intention, a: Intention, b: Intention)
    requires Opposed(a, b)
    ensures Matched(cfg, w, pool, main, a, b).None? <==> Panics(cfg, w.amm.ledger, a, b)
  {
    hide Prepared, Executed, Validated, PartlySettled, Sane, Fee, Free;
    PreparedIff(cfg, w.amm.ledger, a, b, pool, b.amountOut, b.amountIn);
  }

  /** The `i`-th round panics, on what the rounds before it left of the main intention and of the ledger. */
  predicate PanicsAt(cfg: Xyk.Config, w: World, pool: AccountId, main: Intention, group: seq<Intention>, i: nat)
    requires i < |group|
  {
    match MatchedAll(cfg, w, pool, main, group[..i])
    case None => false
    case Some((w', a)) => Panics(cfg, w'.amm.ledger, a, group[i])
  }

  /** A panic in one round is a panic of the whole group. */
  lemma {:induction false} MatchPanics(cfg: Xyk.Config, w: World, pool: AccountId, main: Intention,
                                       group: seq<Intention>, i: nat)
    requires i <= |group| && MatchedAll(cfg, w, pool, main, group[..i]) == None
    ensures MatchedAll(cfg, w, pool, main, group) == None
    decreases |group| - i
  {
    hide Matched;
    if i == |group| {
      assert group[..i] == group;
    } else {
      assert group[..i + 1][..i] == group[..i];
      MatchPanics(cfg, w, pool, main, group, i + 1);
    }
  }

  lemma {:induction false} SomeRoundPanics(cfg: Xyk.Config, w: World, pool: AccountId, main: Intention,
                                           group: seq<Intention>) returns (i: nat)
    requires forall j :: 0 <= j < |group| ==> Opposed(main, group[j])
    requires MatchedAll(cfg, w, pool, main, group) == None
    ensures i < |group| && PanicsAt(cfg, w, pool, main, group, i)
    decreases |group|
  {
    hide Matched, Panics;
    var init, last := group[..|group| - 1], group[|group| - 1];
    var before := MatchedAll(cfg, w, pool, main, init);
    if before.None? {
      i := SomeRoundPanics(cfg, w, pool, main, init);
      assert init[..i] == group[..i];
    } else {
      i := |group| - 1;
      var (w', a) := before.value;
      MainFill(cfg, w, pool, main, init, w', a);
      assert Opposed(main, last);
      MatchedPanicsIff(cfg, w', pool, main, a, last);
    }
  }

  /** A group panics exactly when one of its rounds does, on the amounts still left when it comes. */
  lemma GroupPanicsIff(cfg: Xyk.Config, w: World, pool: AccountId, main: Intention, group: seq<Intention>)
    requires forall j :: 0 <= j < |group| ==> Opposed(main, group[j])
    ensures MatchedAll(cfg, w, pool, main, group).None? <==>
              exists i: nat :: i < |group| && PanicsAt(cfg, w, pool, main, group, i)
  {
    hide Matched, Panics;
    if MatchedAll(cfg, w, pool, main, group).None? {
      var i := SomeRoundPanics(cfg, w, pool, main, group);
    } else if i: nat :| i < |group| && PanicsAt(cfg, w, pool, main, group, i) {
      var (w', a) := MatchedAll(cfg, w, pool, main, group[..i]).value;
      MainFill(cfg, w, pool, main, group[..i], w', a);
      assert Opposed(main, group[i]);
      MatchedPanicsIff(cfg, w', pool, main, a, group[i]);
      assert group[..i + 1][..i] == group[..i];
      MatchPanics(cfg, w, pool, main, group, i + 1);
    }
  }

  // Prices.

  /** The other amount of an intention is the floored spot price on reserves `r` of what it sells and `q` of what it
      buys. */
  predicate PricedAt(i: Intention, r: nat, q: nat)
    requires r > 0 && q > 0
  {
    if i.isSell then i.amountOut == i.amountIn * q / r else i.amountIn == i.amountOut * r / q
  }

  /** Of two opposed intentions priced at one pair of reserves, the larger in one asset is not the smaller in the other:
      `ai > bo` gives `ao >= bi`. */
  lemma PricesAgree(a: Intention, b: Intention, r: nat, q: nat)
    requires r > 0 && q > 0 && PricedAt(a, r, q) && PricedAt(b, q, r) && a.amountIn > b.amountOut
    ensures a.amountOut >= b.amountIn
  {
    if a.isSell {
      if b.isSell {
        FloorBounds(b.amountIn * r, q);
        MulMonotone(b.amountOut + 1, a.amountIn, q);
        Distribute(q, b.amountOut, 1);
        DivAtLeast(a.amountIn * q, r, b.amountIn);
      } else {
        MulMonotone(b.amountOut, a.amountIn, q);
        DivMonotone(b.amountOut * q, a.amountIn * q, r);
      }
    } else if a.amountOut < b.amountIn {
      if b.isSell {
        MulMonotone(a.amountOut, b.amountIn, r);
        DivMonotone(a.amountOut * r, b.amountIn * r, q);
      } else {
        FloorBounds(a.amountOut * r, q);
        FloorBounds(b.amountOut * q, r);
        MulMonotone(b.amountOut + 1, a.amountIn, q);
        Distribute(q, b.amountOut, 1);
        MulMonotone(a.amountOut + 1, b.amountIn, r);
        Distribute(r, a.amountOut, 1);
      }
    }
  }

  /** So the first match of a main intention never panics when both were priced at the same reserves. */
  lemma FirstMatchNeverPanics(cfg: Xyk.Config, w: World, pool: AccountId, main: Intention, b: Intention, r: nat, q: nat)
    requires r > 0 && q > 0 && PricedAt(main, r, q) && PricedAt(b, q, r)
    ensures Matched(cfg, w, pool, main, main, b).Some?
  {
    hide Settled, PartlySettled, Validated, PricedAt;
    if main.amountIn > b.amountOut {
      PricesAgree(main, b, r, q);
    } else if main.amountIn < b.amountOut {
      PricesAgreeFlipped(main, b, r, q);
    }
  }

  lemma PricesAgreeFlipped(a: Intention, b: Intention, r: nat, q: nat)
    requires r > 0 && q > 0 && PricedAt(a, r, q) && PricedAt(b, q, r) && a.amountIn < b.amountOut
    ensures b.amountIn >= a.amountOut
  {
    if b.isSell {
      if a.isSell {
        FloorBounds(b.amountIn * r, q);
        FloorBounds(a.amountIn * q, r);
        if b.amountIn < a.amountOut {
          MulMonotone(a.amountIn + 1, b.amountOut, q);
          Distribute(q, a.amountIn, 1);
          MulMonotone(b.amountIn + 1, a.amountOut, r);
          Distribute(r, b.amountIn, 1);
        }
      } else if b.amountIn < a.amountOut {
        MulMonotone(b.amountIn, a.amountOut, r);
        DivMonotone(b.amountIn * r, a.amountOut * r, q);
      }
    } else if a.isSell {
      MulMonotone(a.amountIn, b.amountOut, q);
      DivMonotone(a.amountIn * q, b.amountOut * q, r);
    } else {
      FloorBounds(a.amountOut * r, q);
      MulMonotone(a.amountIn + 1, b.amountOut, q);
      Distribute(q, a.amountIn, 1);
      DivAtLeast(b.amountOut * q, r, a.amountOut);
    }
  }

  /** Priced without remainder. */
  predicate PricedExactly(i: Intention, r: nat, q: nat) { i.amountOut * r == i.amountIn * q }

  lemma ProductOrder(x: nat, y: nat, r: nat)
    requires x * r < y * r
    ensures x < y
  {
    if y <= x {
      MulMonotone(y, x, r);
    }
  }

  lemma ProductStrict(x: nat, y: nat, q: nat)
    requires x < y && q > 0
    ensures x * q < y * q
  {
    MulMonotone(x + 1, y, q);
    Distribute(q, x, 1);
  }

  /** An order of exact prices is the same in both assets. */
  lemma ExactOrder(a: Intention, b: Intention, r: nat, q: nat)
    requires r > 0 && q > 0 && PricedExactly(a, r, q) && PricedExactly(b, q, r)
    ensures a.amountIn > b.amountOut ==> a.amountOut > b.amountIn
    ensures a.amountIn < b.amountOut ==> a.amountOut < b.amountIn
  {
    if a.amountIn > b.amountOut {
      ProductStrict(b.amountOut, a.amountIn, q);
      ProductOrder(b.amountIn, a.amountOut, r);
    }
    if a.amountIn < b.amountOut {
      ProductStrict(a.amountIn, b.amountOut, q);
      ProductOrder(a.amountOut, b.amountIn, r);
    }
  }

  lemma LeftExact(a: Intention, b: Intention, r: nat, q: nat)
    requires PricedExactly(a, r, q) && PricedExactly(b, q, r) && b.amountOut <= a.amountIn && b.amountIn <= a.amountOut
    ensures PricedExactly(LeftOf(a, b), r, q)
  {
    Distribute(q, a.amountIn - b.amountOut, b.amountOut);
    Distribute(r, a.amountOut - b.amountIn, b.amountIn);
  }

  /** A round between exact prices does not panic, and leaves an exact price as long as it leaves anything. */
  lemma ExactRound(cfg: Xyk.Config, w: World, pool: AccountId, main: Intention, a: Intention, b: Intention, r: nat,
                   q: nat)
    requires r > 0 && q > 0 && PricedExactly(a, r, q) && PricedExactly(b, q, r)
    ensures Matched(cfg, w, pool, main, a, b).Some?
    ensures var a' := Matched(cfg, w, pool, main, a, b).value.1; a'.amountIn > 0 ==> PricedExactly(a', r, q)
  {
    hide Settled, PartlySettled, Validated, PricedExactly;
    ExactOrder(a, b, r, q);
    if a.amountIn > b.amountOut {
      LeftExact(a, b, r, q);
    }
  }

  /** When the prices of a main intention and of its whole group are exact, resolving the group does not panic. */
  lemma {:induction false} ExactPricesNeverPanic(cfg: Xyk.Config, w: World, pool: AccountId, main: Intention,
                                                 bs: seq<Intention>, i: nat, r: nat, q: nat)
    requires r > 0 && q > 0 && PricedExactly(main, r, q) && i <= GroupLen(bs, main.amountIn)
    requires forall j :: 0 <= j < i ==> PricedExactly(bs[j], q, r)
    ensures MatchedAll(cfg, w, pool, main, bs[..i]).Some?
    ensures var a := MatchedAll(cfg, w, pool, main, bs[..i]).value.1; a.amountIn > 0 ==> PricedExactly(a, r, q)
    decreases i
  {
    hide Matched, PricedExactly;
    if i > 0 {
      assert bs[..i][..i - 1] == bs[..i - 1];
      ExactPricesNeverPanic(cfg, w, pool, main, bs, i - 1, r, q);
      var (w', a) := MatchedAll(cfg, w, pool, main, bs[..i - 1]).value;
      OnlyLastExhausts(cfg, w, pool, main, bs, i - 1, w', a);
      assert PricedExactly(bs[i - 1], q, r);
      ExactRound(cfg, w', pool, main, a, bs[i - 1], r, q);
    }
  }

  /** So a pair whose intentions are all priced without remainder at one pair of reserves is processed without a panic,
      however they are grouped and whatever fails on the way. */
  lemma {:induction false} ExactPairNeverPanics(cfg: Xyk.Config, w: World, pool: AccountId, mains: seq<Intention>,
                                                bs: seq<Intention>, r: nat, q: nat)
    requires r > 0 && q > 0
    requires forall i :: 0 <= i < |mains| ==> PricedExactly(mains[i], r, q)
    requires forall j :: 0 <= j < |bs| ==> PricedExactly(bs[j], q, r)
    ensures ProcessedFrom(cfg, w, pool, mains, bs).Some?
    decreases |mains|
  {
    hide MatchedAll, ResolvedSingle, ResolvedEach, Validated, GroupLen, PricedExactly;
    if mains == [] {
    } else if Validated(cfg, w.amm, mains[0]).Err? {
      ExactPairNeverPanics(cfg, w, pool, mains[1..], bs, r, q);
    } else {
      var n := GroupLen(bs, mains[0].amountIn);
      ExactPricesNeverPanic(cfg, w, pool, mains[0], bs, n, r, q);
      var w' := ResolvedMatched(cfg, w, pool, mains[0], bs[..n]).value;
      ExactPairNeverPanics(cfg, w', pool, mains[1..], bs[n..], r, q);
    }
  }
}
