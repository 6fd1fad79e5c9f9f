/** How a block is resolved: the order it works in, how intentions are grouped, exact fills and limits. */
module MatchingLaws {
  import opened Basics
  import opened Rounding
  import opened Ledgers
  import opened Direct
  import opened Matching
  import Xyk
  import opened XykTrades

  // Sorting.

  predicate Descending(s: seq<Intention>) { forall i, j :: 0 <= i < j < |s| ==> s[i].amountIn >= s[j].amountIn }

  /** The intentions of one amount, in order. */
  function Of(s: seq<Intention>, amount: nat): seq<Intention>
    decreases |s|
  {
    if s == [] then []
    else
      var last := s[|s| - 1];
      if last.amountIn == amount then Of(s[..|s| - 1], amount) + [last] else Of(s[..|s| - 1], amount)
  }

  lemma {:induction false} InsertedIn(s: seq<Intention>, x: Intention)
    ensures |Inserted(s, x)| == |s| + 1 && multiset(Inserted(s, x)) == multiset(s) + multiset{x}
    decreases |s|
  {
    if s != [] && s[|s| - 1].amountIn < x.amountIn {
      InsertedIn(s[..|s| - 1], x);
      assert s == s[..|s| - 1] + [s[|s| - 1]];
    }
  }

  lemma {:induction false} InsertedDescending(s: seq<Intention>, x: Intention)
    requires Descending(s)
    ensures Descending(Inserted(s, x))
    decreases |s|
  {
    if s != [] && s[|s| - 1].amountIn < x.amountIn {
      var init, last := s[..|s| - 1], s[|s| - 1];
      InsertedDescending(init, x);
      forall i | 0 <= i < |Inserted(init, x)|
        ensures Inserted(init, x)[i].amountIn >= last.amountIn
      {
        InsertedIn(init, x);
        assert Inserted(init, x)[i] in multiset(init) + multiset{x};
      }
    }
  }

  lemma {:induction false} InsertedStable(s: seq<Intention>, x: Intention, amount: nat)
    requires Descending(s)
    ensures Of(Inserted(s, x), amount) == if x.amountIn == amount then Of(s, amount) + [x] else Of(s, amount)
    decreases |s|
  {
    if s == [] || s[|s| - 1].amountIn >= x.amountIn {
      assert (s + [x])[..|s|] == s;
    } else {
      var init, last := s[..|s| - 1], s[|s| - 1];
      InsertedStable(init, x, amount);
      InsertedIn(init, x);
      assert (Inserted(init, x) + [last])[..|s|] == Inserted(init, x);
    }
  }

  /** Sorting is by falling amount, loses and invents nothing, and is stable. */
  lemma {:induction false} SortedLaws(s: seq<Intention>, amount: nat)
    ensures Descending(Sorted(s)) && multiset(Sorted(s)) == multiset(s)
    ensures Of(Sorted(s), amount) == Of(s, amount)
    decreases |s|
  {
    if s != [] {
      var init := s[..|s| - 1];
      assert s == init + [s[|s| - 1]];
      SortedLaws(init, amount);
      InsertedIn(Sorted(init), s[|s| - 1]);
      InsertedDescending(Sorted(init), s[|s| - 1]);
      InsertedStable(Sorted(init), s[|s| - 1], amount);
    }
  }

  // Exact fills.

  function DirectFromA(log: seq<Event>): nat
    decreases |log|
  {
    if log == [] then 0
    else DirectFromA(log[..|log| - 1]) + if log[|log| - 1].DirectTrade? then log[|log| - 1].fromA else 0
  }

  function DirectFromB(log: seq<Event>): nat
    decreases |log|
  {
    if log == [] then 0
    else DirectFromB(log[..|log| - 1]) + if log[|log| - 1].DirectTrade? then log[|log| - 1].fromB else 0
  }

  /** What one round did for the matched intention `b`: nothing, or all of it directly, or a part directly and exactly
      the rest through the market maker; and within its limit, before the fees of the direct trade. */
  datatype Fill = Untouched | Whole | Part(transfer: Xyk.AmmTransfer)

  predicate Filled(f: Fill, a: Intention, b: Intention, log: seq<Event>, log': seq<Event>, fromA: nat, fromB: nat) {
    match f
    case Untouched => log' == log && fromA == fromB == 0
    case Whole =>
      && log' == log + [DirectTrade(a.id, b.id, fromA, fromB)]
      && fromA == b.amountOut && fromB == b.amountIn
      && WithinLimit(b, fromB, fromA)
    case Part(t) =>
      && log' == log + [AmmTrade(b.id, b.isSell, t)] + [DirectTrade(a.id, b.id, fromA, fromB)]
      && fromA <= b.amountOut && fromB <= b.amountIn
      && (if b.isSell then fromB + t.amount == b.amountIn else fromA + t.amount == b.amountOut)
      && (if b.isSell then b.tradeLimit <= fromA + t.amountOut else fromB + t.amountOut + t.fee <= b.tradeLimit)
  }

  /** The amounts a validated transfer carries are those of its intention, and within its limit. */
  lemma ValidatedAmount(cfg: Xyk.Config, s: Xyk.State, i: Intention, t: Xyk.AmmTransfer)
    requires Validated(cfg, s, i) == Ok(t)
    ensures t.amount == if i.isSell then i.amountIn else i.amountOut
    ensures t.origin == i.who && t.assets == i.assets
    ensures if i.isSell then i.tradeLimit <= t.amountOut else 0 < t.amountOut && t.amountOut + t.fee <= i.tradeLimit
  {
    hide Xyk.ValidateSell, Xyk.ValidateBuy, Free;
    if i.isSell {
      SellValidated(cfg, s, i.who, i.assets, i.amountIn, i.tradeLimit, i.discount, t);
    } else {
      BuyValidated(cfg, s, i.who, i.assets, i.amountOut, i.tradeLimit, i.discount, t);
    }
  }

  /** The limit of `a` after giving `fromA` and getting `fromB`: a seller still wants the rest, a buyer's is an
      unchecked 128-bit subtraction. */
  function LimitAfter(a: Intention, fromA: nat, fromB: nat): nat {
    if a.isSell then SaturatingSub(a.tradeLimit, fromB) else (a.tradeLimit - fromA) % (MAX_U128 + 1)
  }

  /** What one round leaves of the main intention. */
  predicate Reduced(a: Intention, a': Intention, fromA: nat, fromB: nat) {
    && fromA <= a.amountIn && a'.amountIn == a.amountIn - fromA
    && (a'.amountIn > 0 ==> fromB <= a.amountOut && a'.amountOut == a.amountOut - fromB)
    && a'.(amountIn := a.amountIn, amountOut := a.amountOut, tradeLimit := a.tradeLimit) == a
    && (a'.amountIn == 0 || a' == a || a'.tradeLimit == LimitAfter(a, fromA, fromB))
    && (a' == a ==> fromA == 0 && (a.amountIn > 0 ==> fromB == 0))
  }

  lemma LargerFills(cfg: Xyk.Config, w: World, pool: AccountId, main: Intention, a: Intention, b: Intention, w': World,
                    a': Intention) returns (f: Fill, fromA: nat, fromB: nat)
    requires a.amountIn > b.amountOut && Matched(cfg, w, pool, main, a, b) == Some((w', a'))
    ensures Filled(f, a, b, w.log, w'.log, fromA, fromB) && Reduced(a, a', fromA, fromB)
  {
    hide Prepared, Executed;
    f, fromA, fromB := Untouched, 0, 0;
    if WithinLimit(b, b.amountIn, b.amountOut) && Settled(cfg, w, pool, a, b, b.amountOut, b.amountIn).1 {
      f, fromA, fromB := Whole, b.amountOut, b.amountIn;
    }
  }

  lemma EqualFills(cfg: Xyk.Config, w: World, pool: AccountId, main: Intention, a: Intention, b: Intention, w': World,
                   a': Intention) returns (f: Fill, fromA: nat, fromB: nat)
    requires a.amountIn == b.amountOut && Matched(cfg, w, pool, main, a, b) == Some((w', a'))
    ensures Filled(f, a, b, w.log, w'.log, fromA, fromB) && Reduced(a, a', fromA, fromB)
  {
    hide Prepared, Executed;
    f, fromA, fromB := Untouched, 0, 0;
    if WithinLimit(main, a.amountIn, b.amountIn) && WithinLimit(b, b.amountIn, a.amountIn) &&
       Settled(cfg, w, pool, a, b, a.amountIn, b.amountIn).1 {
      f, fromA, fromB := Whole, a.amountIn, b.amountIn;
    }
  }

  lemma SmallerFills(cfg: Xyk.Config, w: World, pool: AccountId, main: Intention, a: Intention, b: Intention, w': World,
                     a': Intention) returns (f: Fill, fromA: nat, fromB: nat)
    requires a.amountIn < b.amountOut && Matched(cfg, w, pool, main, a, b) == Some((w', a'))
    ensures Filled(f, a, b, w.log, w'.log, fromA, fromB) && Reduced(a, a', fromA, fromB)
  {
    hide Prepared, Executed, Reverted, AmmExecuted, Validated;
    f, fromA, fromB := Untouched, 0, 0;
    var v := Validated(cfg, w.amm, RestOf(b, a));
    if v.Ok? {
      ValidatedAmount(cfg, w.amm, RestOf(b, a), v.value);
      if PartlySettled(cfg, w, pool, a, b, v.value).1 {
        f, fromA, fromB := Part(v.value), a.amountIn, a.amountOut;
      }
    }
  }

  /** A matched intention is filled exactly or not at all: its direct leg and its market maker leg sum to its amount. */
  lemma MatchedFills(cfg: Xyk.Config, w: World, pool: AccountId, main: Intention, a: Intention, b: Intention, w': World,
                     a': Intention) returns (f: Fill, fromA: nat, fromB: nat)
    requires Matched(cfg, w, pool, main, a, b) == Some((w', a'))
    ensures Filled(f, a, b, w.log, w'.log, fromA, fromB) && Reduced(a, a', fromA, fromB)
  {
    hide Matched, Filled, Reduced;
    if a.amountIn > b.amountOut {
      f, fromA, fromB := LargerFills(cfg, w, pool, main, a, b, w', a');
    } else if a.amountIn < b.amountOut {
      f, fromA, fromB := SmallerFills(cfg, w, pool, main, a, b, w', a');
    } else {
      f, fromA, fromB := EqualFills(cfg, w, pool, main, a, b, w', a');
    }
  }

  lemma FilledSums(f: Fill, a: Intention, b: Intention, log: seq<Event>, log': seq<Event>, fromA: nat, fromB: nat)
    requires Filled(f, a, b, log, log', fromA, fromB)
    ensures log <= log'
    ensures DirectFromA(log') == DirectFromA(log) + fromA && DirectFromB(log') == DirectFromB(log) + fromB
  {
    match f
    case Untouched =>
    case Whole =>
      assert log'[..|log|] == log;
    case Part(t) =>
      var amm := log + [AmmTrade(b.id, b.isSell, t)];
      assert log'[..|amm|] == amm && amm[..|log|] == log;
  }

  /** Exact fill of the main intention: what it gave in direct trades and what is left of it sum to its amount; as long
      as something is left, so do what it got and what it still wants. */
  lemma {:induction false} MainFill(cfg: Xyk.Config, w: World, pool: AccountId, main: Intention, group: seq<Intention>,
                                    w': World, a: Intention)
    requires MatchedAll(cfg, w, pool, main, group) == Some((w', a))
    ensures w.log <= w'.log
    ensures DirectFromA(w'.log) - DirectFromA(w.log) + a.amountIn == main.amountIn
    ensures a.amountIn > 0 ==> DirectFromB(w'.log) - DirectFromB(w.log) + a.amountOut == main.amountOut
    ensures a.(amountIn := main.amountIn, amountOut := main.amountOut, tradeLimit := main.tradeLimit) == main
    decreases |group|
  {
    hide Matched, Filled, DirectFromA, DirectFromB;
    if group != [] {
      var (w1, a1) := MatchedAll(cfg, w, pool, main, group[..|group| - 1]).value;
      MainFill(cfg, w, pool, main, group[..|group| - 1], w1, a1);
      var b := group[|group| - 1];
      var f, fromA, fromB := MatchedFills(cfg, w1, pool, main, a1, b, w', a);
      FilledSums(f, a1, b, w1.log, w'.log, fromA, fromB);
    }
  }

  /** After the group, exactly what is left of the main intention goes to the market maker: of a seller the amount not
      yet given, of a buyer the amount not yet got. Nothing is sent exactly when nothing is left, or the market maker
      does not validate or cannot execute the trade. */
  lemma MainRest(cfg: Xyk.Config, w: World, pool: AccountId, main: Intention, group: seq<Intention>, w': World)
    returns (direct: World, left: Intention)
    requires ResolvedMatched(cfg, w, pool, main, group) == Some(w')
    ensures MatchedAll(cfg, w, pool, main, group) == Some((direct, left))
    ensures var v := Validated(cfg, direct.amm, left);
            if left.amountIn == 0 || v.Err? || AmmExecuted(cfg, direct.amm.ledger, main.isSell, v.value).Err?
            then w' == direct
            else
              && w'.log == direct.log + [AmmTrade(main.id, main.isSell, v.value)]
              && v.value.origin == main.who && v.value.assets == main.assets
              && if main.isSell
                 then DirectFromA(direct.log) - DirectFromA(w.log) + v.value.amount == main.amountIn
                 else DirectFromB(direct.log) - DirectFromB(w.log) + v.value.amount == main.amountOut
  {
    hide MatchedAll, Validated, AmmExecuted, DirectFromA, DirectFromB;
    var m := MatchedAll(cfg, w, pool, main, group).value;
    direct, left := m.0, m.1;
    MainFill(cfg, w, pool, main, group, direct, left);
    var v := Validated(cfg, direct.amm, left);
    if left.amountIn > 0 && v.Ok? {
      ValidatedAmount(cfg, direct.amm, left, v.value);
    }
  }

  /** Subtractions modulo `m` add up. */
  lemma ModTwice(x: int, y: nat, z: nat, m: nat)
    requires m > 0
    ensures ((x - y) % m - z) % m == (x - (y + z)) % m
  {
    var k := (x - y) / m;
    assert (x - y) % m == (x - y) - k * m;
    ModShift(x - y - z, k, m);
  }

  lemma ModShift(x: int, k: int, m: nat)
    requires m > 0
    ensures (x - k * m) % m == x % m
  {
    var q, r := x / m, x % m;
    assert x == q * m + r;
    assert x - k * m == (q - k) * m + r by { assert (q - k) * m == q * m - k * m; }
    ModUnique(x - k * m, m, q - k, r);
  }

  /** What the direct trades leave of the main intention's limit, as long as they leave anything to trade. */
  lemma {:induction false} LimitLeft(cfg: Xyk.Config, w: World, pool: AccountId, main: Intention, group: seq<Intention>,
                                     w': World, a: Intention)
    requires MatchedAll(cfg, w, pool, main, group) == Some((w', a)) && main.tradeLimit <= MAX_U128
    ensures DirectFromA(w.log) <= DirectFromA(w'.log) && DirectFromB(w.log) <= DirectFromB(w'.log)
    ensures a.amountIn > 0 ==>
              a.tradeLimit == LimitAfter(main, DirectFromA(w'.log) - DirectFromA(w.log),
                                         DirectFromB(w'.log) - DirectFromB(w.log))
    decreases |group|
  {
    hide Matched, Filled, DirectFromA, DirectFromB;
    if group != [] {
      var (w1, a1) := MatchedAll(cfg, w, pool, main, group[..|group| - 1]).value;
      LimitLeft(cfg, w, pool, main, group[..|group| - 1], w1, a1);
      MainFill(cfg, w, pool, main, group[..|group| - 1], w1, a1);
      var b := group[|group| - 1];
      var f, fromA, fromB := MatchedFills(cfg, w1, pool, main, a1, b, w', a);
      FilledSums(f, a1, b, w1.log, w'.log, fromA, fromB);
      if !main.isSell {
        ModTwice(main.tradeLimit, DirectFromA(w1.log) - DirectFromA(w.log), fromA, MAX_U128 + 1);
      }
    }
  }

  /** The main intention's own limit, when its rest is traded with the market maker. A seller gets at least the limit,
      from direct trades before fees and from the market maker after them. A buyer pays at most the limit if the direct
      payments alone do not exceed it; if they do, the limit has wrapped to the difference below 2^128. */
  lemma MainWithinLimit(cfg: Xyk.Config, w: World, pool: AccountId, main: Intention, group: seq<Intention>,
                        direct: World, left: Intention, t: Xyk.AmmTransfer)
    requires MatchedAll(cfg, w, pool, main, group) == Some((direct, left)) && main.tradeLimit <= MAX_U128
    requires left.amountIn > 0 && Validated(cfg, direct.amm, left) == Ok(t)
    ensures var given := DirectFromA(direct.log) - DirectFromA(w.log);
            var got := DirectFromB(direct.log) - DirectFromB(w.log);
            if main.isSell then main.tradeLimit <= got + t.amountOut
            else if given <= main.tradeLimit then given + t.amountOut + t.fee <= main.tradeLimit
            else t.amountOut + t.fee <= (main.tradeLimit - given) % (MAX_U128 + 1)
  {
    hide MatchedAll, Validated, DirectFromA, DirectFromB;
    LimitLeft(cfg, w, pool, main, group, direct, left);
    MainFill(cfg, w, pool, main, group, direct, left);
    ValidatedAmount(cfg, direct.amm, left, t);
  }

  // Grouping.

  /** What the grouping counts as left of `left` before the `i`-th intention. */
  function CountedLeft(bs: seq<Intention>, left: nat, i: nat): nat
    requires i <= |bs|
    decreases i
  {
    if i == 0 then left else CountedLeft(bs[1..], SaturatingSub(left, bs[0].amountOut), i - 1)
  }

  lemma {:induction false} CountedLeftStep(bs: seq<Intention>, left: nat, i: nat)
    requires i < |bs|
    ensures CountedLeft(bs, left, i + 1) == SaturatingSub(CountedLeft(bs, left, i), bs[i].amountOut)
    decreases i
  {
    if i > 0 {
      CountedLeftStep(bs[1..], SaturatingSub(left, bs[0].amountOut), i - 1);
    }
  }

  /** A group is the shortest prefix that counts nothing as left, or everything there is. */
  lemma {:induction false} GroupShortest(bs: seq<Intention>, left: nat, i: nat)
    requires i <= GroupLen(bs, left)
    ensures i < GroupLen(bs, left) ==> CountedLeft(bs, left, i) > 0
    ensures i == GroupLen(bs, left) ==> i == |bs| || CountedLeft(bs, left, i) == 0
    decreases i
  {
    if i > 0 {
      GroupShortest(bs[1..], SaturatingSub(left, bs[0].amountOut), i - 1);
    }
  }

  /** Only the last of a group can use up what is left of the main intention: before each of them something is left,
      at least the part of the amount that the grouping counted as left. */
  lemma {:induction false} OnlyLastExhausts(cfg: Xyk.Config, w: World, pool: AccountId, main: Intention,
                                            bs: seq<Intention>, i: nat, w': World, a: Intention)
    requires i < GroupLen(bs, main.amountIn)
    requires MatchedAll(cfg, w, pool, main, bs[..i]) == Some((w', a))
    ensures CountedLeft(bs, main.amountIn, i) <= a.amountIn && 0 < a.amountIn
    decreases i
  {
    hide Matched, Filled;
    GroupShortest(bs, main.amountIn, i);
    if i > 0 {
      assert bs[..i][..i - 1] == bs[..i - 1];
      var (w1, a1) := MatchedAll(cfg, w, pool, main, bs[..i - 1]).value;
      OnlyLastExhausts(cfg, w, pool, main, bs, i - 1, w1, a1);
      var f, fromA, fromB := MatchedFills(cfg, w1, pool, main, a1, bs[i - 1], w', a);
      assert fromA <= bs[i - 1].amountOut by { FillBelow(f, a1, bs[i - 1], w1.log, w'.log, fromA, fromB); }
      CountedLeftStep(bs, main.amountIn, i - 1);
    }
  }

  lemma FillBelow(f: Fill, a: Intention, b: Intention, log: seq<Event>, log': seq<Event>, fromA: nat, fromB: nat)
    requires Filled(f, a, b, log, log', fromA, fromB)
    ensures fromA <= b.amountOut && fromB <= b.amountIn
  {
  }
}
