/** Direct trades between two intentions: amounts are reserved first, then moved to the other side and to the pool
    as fees, or given back. */
module Direct {
  import opened Basics
  import opened Ledgers
  import Xyk

  datatype Intention = Intention(
    who: nat,
    assets: AssetPair,
    amountIn: nat,
    amountOut: nat,
    tradeLimit: nat,
    discount: bool,
    isSell: bool,
    id: nat)

  /** A transfer out of a reserve. */
  datatype Leg = Leg(from: AccountId, to: AccountId, asset: AssetId, amount: nat, isFee: bool)

  // Specification.

  function Fee(cfg: Xyk.Config, amount: nat): Option<nat> { Xyk.TradeFee(amount, cfg.feeNumerator, cfg.feeDenominator) }

  /** What a side has to reserve: a buyer pays the fee on top. */
  function Hold(isSell: bool, amount: nat, fee: nat): nat { if isSell then amount else amount + fee }

  /** The transfers that settle a trade of `fromA` against `fromB`. */
  function Legs(a: Intention, b: Intention, pool: AccountId, fromA: nat, fromB: nat, feeA: nat, feeB: nat): seq<Leg>
    requires feeA <= fromA && feeB <= fromB
  {
    var A, B := User(a.who), User(b.who);
    match (a.isSell, b.isSell)
    case (true, true) =>
      [Leg(A, B, a.assets.assetIn, fromA - feeA, false), Leg(B, A, a.assets.assetOut, fromB - feeB, false),
       Leg(A, pool, a.assets.assetIn, feeA, true), Leg(B, pool, b.assets.assetIn, feeB, true)]
    case (false, false) =>
      [Leg(A, B, a.assets.assetIn, fromA, false), Leg(B, A, a.assets.assetOut, fromB, false),
       Leg(A, pool, a.assets.assetIn, feeA, true), Leg(B, pool, b.assets.assetIn, feeB, true)]
    case (false, true) =>
      [Leg(A, B, a.assets.assetIn, fromA - feeA, false), Leg(B, A, a.assets.assetOut, fromB, false),
       Leg(A, pool, a.assets.assetIn, 2 * feeA, true)]
    case (true, false) =>
      [Leg(A, B, a.assets.assetIn, fromA, false), Leg(B, A, a.assets.assetOut, fromB - feeB, false),
       Leg(B, pool, b.assets.assetIn, 2 * feeB, true)]
  }

  /** Both sides own what they give, and the fees can be computed and do not exceed it. */
  predicate Sane(cfg: Xyk.Config, l: Ledger, a: Intention, b: Intention, fromA: nat, fromB: nat) {
    && fromA <= Free(l, a.assets.assetIn, User(a.who))
    && fromB <= Free(l, a.assets.assetOut, User(b.who))
    && Fee(cfg, fromA).Some? && Fee(cfg, fromB).Some?
    && Fee(cfg, fromA).value <= fromA && Fee(cfg, fromB).value <= fromB
  }

  function HoldA(cfg: Xyk.Config, a: Intention, fromA: nat): nat
    requires Fee(cfg, fromA).Some?
  {
    Hold(a.isSell, fromA, Fee(cfg, fromA).value)
  }

  /** The ledger after preparing, and the transfers if that succeeded. A failure may leave one side reserved. */
  function Prepared(cfg: Xyk.Config, l: Ledger, a: Intention, b: Intention, pool: AccountId, fromA: nat, fromB: nat)
    : (Ledger, Option<seq<Leg>>)
  {
    if !Sane(cfg, l, a, b, fromA, fromB) then (l, None)
    else
      match Reserve(l, a.assets.assetIn, User(a.who), HoldA(cfg, a, fromA)) {
        case None => (l, None)
        case Some(l1) =>
          match Reserve(l1, a.assets.assetOut, User(b.who), HoldA(cfg, b, fromB)) {
            case None => (l1, None)
            case Some(l2) => (l2, Some(Legs(a, b, pool, fromA, fromB, Fee(cfg, fromA).value, Fee(cfg, fromB).value)))
          }
      }
  }

  function Executed(l: Ledger, legs: seq<Leg>): Ledger
    decreases |legs|
  {
    if legs == [] then l
    else
      var rest := Executed(l, legs[..|legs| - 1]);
      var leg := legs[|legs| - 1];
      Repatriate(rest, leg.asset, leg.from, leg.to, leg.amount)
  }

  function Reverted(l: Ledger, legs: seq<Leg>): Ledger
    decreases |legs|
  {
    if legs == [] then l
    else
      var rest := Reverted(l, legs[..|legs| - 1]);
      var leg := legs[|legs| - 1];
      Unreserve(rest, leg.asset, leg.from, leg.amount)
  }

  // Exactness.

  /** What the transfers take from an account's reserve, and what they bring to its free balance. */
  function Taken(legs: seq<Leg>, who: AccountId, asset: AssetId): nat
    decreases |legs|
  {
    if legs == [] then 0
    else
      var leg := legs[|legs| - 1];
      Taken(legs[..|legs| - 1], who, asset) + if leg.from == who && leg.asset == asset then leg.amount else 0
  }

  function Brought(legs: seq<Leg>, who: AccountId, asset: AssetId): nat
    decreases |legs|
  {
    if legs == [] then 0
    else
      var leg := legs[|legs| - 1];
      Brought(legs[..|legs| - 1], who, asset) + if leg.to == who && leg.asset == asset then leg.amount else 0
  }

  ghost predicate Covered(l: Ledger, legs: seq<Leg>) {
    forall who, asset {:trigger Taken(legs, who, asset)} {:trigger Reserved(l, asset, who)} ::
      Taken(legs, who, asset) <= Reserved(l, asset, who)
  }

  lemma CoveredPrefix(l: Ledger, legs: seq<Leg>)
    requires legs != [] && Covered(l, legs)
    ensures Covered(l, legs[..|legs| - 1])
  {
    forall who, asset
      ensures Taken(legs[..|legs| - 1], who, asset) <= Reserved(l, asset, who)
    {
      assert Taken(legs, who, asset) <= Reserved(l, asset, who);
    }
  }

  lemma CoveredByReserved(l: Ledger, l': Ledger, legs: seq<Leg>)
    requires Covered(l, legs) && l'.reserved == l.reserved
    ensures Covered(l', legs)
  {
    forall who, asset
      ensures Taken(legs, who, asset) <= Reserved(l', asset, who)
    {
      assert Taken(legs, who, asset) <= Reserved(l, asset, who);
    }
  }

  /** Covered transfers are made in full. */
  lemma {:induction false} ExecutedExact(l: Ledger, legs: seq<Leg>, who: AccountId, asset: AssetId)
    requires Covered(l, legs)
    ensures Reserved(Executed(l, legs), asset, who) == Reserved(l, asset, who) - Taken(legs, who, asset)
    ensures Free(Executed(l, legs), asset, who) == Free(l, asset, who) + Brought(legs, who, asset)
    decreases |legs|
  {
    if legs != [] {
      var rest, leg := legs[..|legs| - 1], legs[|legs| - 1];
      CoveredPrefix(l, legs);
      ExecutedExact(l, rest, who, asset);
      ExecutedExact(l, rest, leg.from, leg.asset);
      assert Taken(legs, leg.from, leg.asset) <= Reserved(l, leg.asset, leg.from);
      RepatriateMoves(Executed(l, rest), leg.asset, leg.from, leg.to, leg.amount, asset, who);
    }
  }

  lemma {:induction false} RevertedExact(l: Ledger, legs: seq<Leg>, who: AccountId, asset: AssetId)
    requires Covered(l, legs)
    ensures Reserved(Reverted(l, legs), asset, who) == Reserved(l, asset, who) - Taken(legs, who, asset)
    ensures Free(Reverted(l, legs), asset, who) == Free(l, asset, who) + Taken(legs, who, asset)
    decreases |legs|
  {
    if legs != [] {
      var rest, leg := legs[..|legs| - 1], legs[|legs| - 1];
      CoveredPrefix(l, legs);
      RevertedExact(l, rest, who, asset);
      RevertedExact(l, rest, leg.from, leg.asset);
      assert Taken(legs, leg.from, leg.asset) <= Reserved(l, leg.asset, leg.from);
      RepatriateMoves(Reverted(l, rest), leg.asset, leg.from, leg.from, leg.amount, asset, who);
    }
  }

  lemma {:induction false} ExecutedConserves(l: Ledger, legs: seq<Leg>, asset: AssetId)
    ensures Supply(Executed(l, legs), asset) == Supply(l, asset)
    decreases |legs|
  {
    if legs != [] {
      var rest, leg := legs[..|legs| - 1], legs[|legs| - 1];
      ExecutedConserves(l, rest, asset);
      RepatriateConserves(Executed(l, rest), leg.asset, leg.from, leg.to, leg.amount, asset);
    }
  }

  /** Two intentions in opposite directions on one pair. */
  predicate Opposed(a: Intention, b: Intention) { a.assets.assetIn != a.assets.assetOut && b.assets == a.assets.Flip() }

  /** What preparing reserves from an account. */
  function Held(cfg: Xyk.Config, a: Intention, b: Intention, fromA: nat, fromB: nat, who: AccountId,
                asset: AssetId): nat
    requires Fee(cfg, fromA).Some? && Fee(cfg, fromB).Some?
  {
    (if who == User(a.who) && asset == a.assets.assetIn then HoldA(cfg, a, fromA) else 0) +
    if who == User(b.who) && asset == a.assets.assetOut then HoldA(cfg, b, fromB) else 0
  }

  lemma TakenFour(a: Leg, b: Leg, c: Leg, d: Leg, who: AccountId, asset: AssetId)
    ensures Taken([a, b, c, d], who, asset) ==
              (if a.from == who && a.asset == asset then a.amount else 0) +
              (if b.from == who && b.asset == asset then b.amount else 0) +
              (if c.from == who && c.asset == asset then c.amount else 0) +
              if d.from == who && d.asset == asset then d.amount else 0
    ensures Brought([a, b, c, d], who, asset) ==
              (if a.to == who && a.asset == asset then a.amount else 0) +
              (if b.to == who && b.asset == asset then b.amount else 0) +
              (if c.to == who && c.asset == asset then c.amount else 0) +
              if d.to == who && d.asset == asset then d.amount else 0
  {
    TakenThree(a, b, c, who, asset);
    assert [a, b, c, d][..3] == [a, b, c];
  }

  lemma TakenThree(a: Leg, b: Leg, c: Leg, who: AccountId, asset: AssetId)
    ensures Taken([a, b, c], who, asset) ==
              (if a.from == who && a.asset == asset then a.amount else 0) +
              (if b.from == who && b.asset == asset then b.amount else 0) +
              if c.from == who && c.asset == asset then c.amount else 0
    ensures Brought([a, b, c], who, asset) ==
              (if a.to == who && a.asset == asset then a.amount else 0) +
              (if b.to == who && b.asset == asset then b.amount else 0) +
              if c.to == who && c.asset == asset then c.amount else 0
  {
    TakenTwo(a, b, who, asset);
    assert [a, b, c][..2] == [a, b];
  }

  lemma TakenTwo(a: Leg, b: Leg, who: AccountId, asset: AssetId)
    ensures Taken([a, b], who, asset) ==
              (if a.from == who && a.asset == asset then a.amount else 0) +
              if b.from == who && b.asset == asset then b.amount else 0
    ensures Brought([a, b], who, asset) ==
              (if a.to == who && a.asset == asset then a.amount else 0) +
              if b.to == who && b.asset == asset then b.amount else 0
  {
    TakenOne(a, who, asset);
    assert [a, b][..1] == [a];
  }

  lemma TakenOne(a: Leg, who: AccountId, asset: AssetId)
    ensures Taken([a], who, asset) == if a.from == who && a.asset == asset then a.amount else 0
    ensures Brought([a], who, asset) == if a.to == who && a.asset == asset then a.amount else 0
  {
    assert [a][..0] == [];
  }

  /** In all four cases the listed transfers sum, side by side, exactly to what is reserved; and the pool gets one
      fee per side, or two from the buyer. */
  lemma LegsExact(cfg: Xyk.Config, a: Intention, b: Intention, pool: AccountId, fromA: nat, fromB: nat, who: AccountId,
                  asset: AssetId)
    requires Opposed(a, b) && !pool.User?
    requires Fee(cfg, fromA).Some? && Fee(cfg, fromB).Some?
    requires Fee(cfg, fromA).value <= fromA && Fee(cfg, fromB).value <= fromB
    ensures var legs := Legs(a, b, pool, fromA, fromB, Fee(cfg, fromA).value, Fee(cfg, fromB).value);
            Taken(legs, who, asset) == Held(cfg, a, b, fromA, fromB, who, asset)
  {
    hide Fee;
    var legs := Legs(a, b, pool, fromA, fromB, Fee(cfg, fromA).value, Fee(cfg, fromB).value);
    if |legs| == 4 {
      TakenFour(legs[0], legs[1], legs[2], legs[3], who, asset);
      assert legs == [legs[0], legs[1], legs[2], legs[3]];
    } else {
      TakenThree(legs[0], legs[1], legs[2], who, asset);
      assert legs == [legs[0], legs[1], legs[2]];
    }
  }

  /** What a successful preparation did: both sides' amounts moved from free to reserved, nothing else. */
  lemma PreparedHolds(cfg: Xyk.Config, l: Ledger, a: Intention, b: Intention, pool: AccountId, fromA: nat, fromB: nat,
                      l': Ledger, legs: seq<Leg>, who: AccountId, asset: AssetId)
    requires Opposed(a, b) && !pool.User?
    requires Prepared(cfg, l, a, b, pool, fromA, fromB) == (l', Some(legs))
    ensures Sane(cfg, l, a, b, fromA, fromB)
    ensures Reserved(l', asset, who) == Reserved(l, asset, who) + Held(cfg, a, b, fromA, fromB, who, asset)
    ensures Free(l', asset, who) == Free(l, asset, who) - Held(cfg, a, b, fromA, fromB, who, asset)
    ensures Taken(legs, who, asset) == Held(cfg, a, b, fromA, fromB, who, asset)
    ensures Supply(l', asset) == Supply(l, asset)
  {
    hide Fee, Supply, Legs;
    var A, B := User(a.who), User(b.who);
    var l1 := Reserve(l, a.assets.assetIn, A, HoldA(cfg, a, fromA)).value;
    ReserveConserves(l, a.assets.assetIn, A, HoldA(cfg, a, fromA), asset);
    ReserveConserves(l1, a.assets.assetOut, B, HoldA(cfg, b, fromB), asset);
    ReserveMoves(l, a.assets.assetIn, A, HoldA(cfg, a, fromA), asset, who);
    ReserveMoves(l1, a.assets.assetOut, B, HoldA(cfg, b, fromB), asset, who);
    LegsExact(cfg, a, b, pool, fromA, fromB, who, asset);
    hide Free, Reserved, Reserve;
  }

  lemma PreparedCovers(cfg: Xyk.Config, l: Ledger, a: Intention, b: Intention, pool: AccountId, fromA: nat, fromB: nat,
                       l': Ledger, legs: seq<Leg>)
    requires Opposed(a, b) && !pool.User?
    requires Prepared(cfg, l, a, b, pool, fromA, fromB) == (l', Some(legs))
    ensures Covered(l', legs)
  {
    hide Prepared, Taken, Reserved;
    forall who, asset
      ensures Taken(legs, who, asset) <= Reserved(l', asset, who)
    {
      PreparedHolds(cfg, l, a, b, pool, fromA, fromB, l', legs, who, asset);
    }
  }

  /** Prepare, then execute: every reserved balance is as it was, and every free balance changed by what the
      account gave and what it got. */
  lemma PrepareExecuteExact(cfg: Xyk.Config, l: Ledger, a: Intention, b: Intention, pool: AccountId, fromA: nat,
                            fromB: nat, l': Ledger, legs: seq<Leg>, who: AccountId, asset: AssetId)
    requires Opposed(a, b) && !pool.User?
    requires Prepared(cfg, l, a, b, pool, fromA, fromB) == (l', Some(legs))
    ensures Reserved(Executed(l', legs), asset, who) == Reserved(l, asset, who)
    ensures Fee(cfg, fromA).Some? && Fee(cfg, fromB).Some?
    ensures Free(Executed(l', legs), asset, who) ==
              Free(l, asset, who) - Held(cfg, a, b, fromA, fromB, who, asset) + Brought(legs, who, asset)
    ensures Supply(Executed(l', legs), asset) == Supply(l, asset)
  {
    hide Prepared, Taken, Brought, Executed, Held, Free, Reserved, Supply;
    PreparedHolds(cfg, l, a, b, pool, fromA, fromB, l', legs, who, asset);
    PreparedCovers(cfg, l, a, b, pool, fromA, fromB, l', legs);
    ExecutedExact(l', legs, who, asset);
    ExecutedConserves(l', legs, asset);
  }

  /** Prepare, then revert: every balance, free and reserved, is as it was. */
  lemma PrepareRevertExact(cfg: Xyk.Config, l: Ledger, a: Intention, b: Intention, pool: AccountId, fromA: nat,
                           fromB: nat, l': Ledger, legs: seq<Leg>, who: AccountId, asset: AssetId)
    requires Opposed(a, b) && !pool.User?
    requires Prepared(cfg, l, a, b, pool, fromA, fromB) == (l', Some(legs))
    ensures Reserved(Reverted(l', legs), asset, who) == Reserved(l, asset, who)
    ensures Free(Reverted(l', legs), asset, who) == Free(l, asset, who)
  {
    hide Prepared, Taken, Reverted, Held, Free, Reserved;
    PreparedHolds(cfg, l, a, b, pool, fromA, fromB, l', legs, who, asset);
    PreparedCovers(cfg, l, a, b, pool, fromA, fromB, l', legs);
    RevertedExact(l', legs, who, asset);
  }

  /** The net of a settled trade: each side gives its hold in the asset it sells and gets the other's hold less the
      fees,
      and the fees go to the pool, so the pool never loses. */
  lemma SettledAmounts(cfg: Xyk.Config, l: Ledger, a: Intention, b: Intention, pool: AccountId, fromA: nat, fromB: nat,
                       l': Ledger, legs: seq<Leg>)
    requires Opposed(a, b) && !pool.User?
    requires Prepared(cfg, l, a, b, pool, fromA, fromB) == (l', Some(legs))
    ensures var feeA, feeB := Fee(cfg, fromA).value, Fee(cfg, fromB).value;
            && Brought(legs, User(b.who), a.assets.assetIn) ==
                 (if !a.isSell then HoldA(cfg, a, fromA) - (if b.isSell then 2 * feeA else feeA)
                  else HoldA(cfg, a, fromA) - (if b.isSell then feeA else 0))
            && Brought(legs, User(a.who), a.assets.assetOut) ==
                 (if !b.isSell then HoldA(cfg, b, fromB) - (if a.isSell then 2 * feeB else feeB)
                  else HoldA(cfg, b, fromB) - (if a.isSell then feeB else 0))
            && Brought(legs, pool, a.assets.assetIn) ==
                 (if a.isSell == b.isSell then feeA else if a.isSell then 0 else 2 * feeA)
            && Brought(legs, pool, a.assets.assetOut) ==
                 (if a.isSell == b.isSell then feeB else if a.isSell then 2 * feeB else 0)
  {
    hide Fee, Reserve, Free, Taken, Brought;
    SettledBrought(legs, User(b.who), a.assets.assetIn);
    SettledBrought(legs, User(a.who), a.assets.assetOut);
    SettledBrought(legs, pool, a.assets.assetIn);
    SettledBrought(legs, pool, a.assets.assetOut);
  }

  lemma SettledBrought(legs: seq<Leg>, who: AccountId, asset: AssetId)
    requires 3 <= |legs| <= 4
    ensures Brought(legs, who, asset) ==
              (if legs[0].to == who && legs[0].asset == asset then legs[0].amount else 0) +
              (if legs[1].to == who && legs[1].asset == asset then legs[1].amount else 0) +
              (if legs[2].to == who && legs[2].asset == asset then legs[2].amount else 0) +
              if |legs| == 4 && legs[3].to == who && legs[3].asset == asset then legs[3].amount else 0
  {
    if |legs| == 4 {
      TakenFour(legs[0], legs[1], legs[2], legs[3], who, asset);
      assert legs == [legs[0], legs[1], legs[2], legs[3]];
    } else {
      TakenThree(legs[0], legs[1], legs[2], who, asset);
      assert legs == [legs[0], legs[1], legs[2]];
    }
  }

  /** Only the first of the two reservations was made. */
  predicate HalfReserved(cfg: Xyk.Config, l: Ledger, a: Intention, b: Intention, fromA: nat, fromB: nat) {
    && Sane(cfg, l, a, b, fromA, fromB)
    && 0 < HoldA(cfg, a, fromA) <= Free(l, a.assets.assetIn, User(a.who))
    && Free(l, a.assets.assetOut, User(b.who)) < HoldA(cfg, b, fromB)
  }

  ghost predicate SameBalances(l: Ledger, l': Ledger) {
    forall who, asset {:trigger Free(l', asset, who)} {:trigger Reserved(l', asset, who)} ::
      Free(l', asset, who) == Free(l, asset, who) && Reserved(l', asset, who) == Reserved(l, asset, who)
  }

  /** A failed preparation lists no transfers, so reverting it undoes nothing: it leaves every balance alone exactly
      when it is not the second reservation that failed. */
  lemma FailedPrepareUnchangedIff(cfg: Xyk.Config, l: Ledger, a: Intention, b: Intention, pool: AccountId, fromA: nat,
                                  fromB: nat, l': Ledger)
    requires Opposed(a, b) && Prepared(cfg, l, a, b, pool, fromA, fromB) == (l', None)
    ensures Reverted(l', []) == l'
    ensures SameBalances(l, l') <==> !HalfReserved(cfg, l, a, b, fromA, fromB)
  {
    hide Fee, Legs;
    var A := User(a.who);
    if Sane(cfg, l, a, b, fromA, fromB) && HoldA(cfg, a, fromA) <= Free(l, a.assets.assetIn, A) {
      var hold := HoldA(cfg, a, fromA);
      forall who, asset
        ensures Reserved(l', asset, who) ==
                Reserved(l, asset, who) + (if asset == a.assets.assetIn && who == A then hold else 0)
        ensures Free(l', asset, who) ==
                Free(l, asset, who) - (if asset == a.assets.assetIn && who == A then hold else 0)
      {
        ReserveMoves(l, a.assets.assetIn, A, hold, asset, who);
      }
      if hold > 0 {
        assert Free(l', a.assets.assetIn, A) != Free(l, a.assets.assetIn, A);
      }
    }
  }

  /** Preparation succeeds exactly when both sides are sane and can afford what they have to hold. */
  lemma PreparedIff(cfg: Xyk.Config, l: Ledger, a: Intention, b: Intention, pool: AccountId, fromA: nat, fromB: nat)
    requires Opposed(a, b)
    ensures Prepared(cfg, l, a, b, pool, fromA, fromB).1.Some? <==>
              && Sane(cfg, l, a, b, fromA, fromB)
              && HoldA(cfg, a, fromA) <= Free(l, a.assets.assetIn, User(a.who))
              && HoldA(cfg, b, fromB) <= Free(l, a.assets.assetOut, User(b.who))
  {
    hide Fee, Legs;
    if Sane(cfg, l, a, b, fromA, fromB) && HoldA(cfg, a, fromA) <= Free(l, a.assets.assetIn, User(a.who)) {
      ReserveMoves(l, a.assets.assetIn, User(a.who), HoldA(cfg, a, fromA), a.assets.assetOut, User(b.who));
      hide Free, Reserve;
    }
  }

  /** What a half-made preparation leaves: the first side's hold, reserved and listed nowhere. */
  lemma HalfReservedStrands(cfg: Xyk.Config, l: Ledger, a: Intention, b: Intention, pool: AccountId, fromA: nat,
                            fromB: nat)
    requires Opposed(a, b) && HalfReserved(cfg, l, a, b, fromA, fromB)
    ensures var (l', legs) := Prepared(cfg, l, a, b, pool, fromA, fromB);
            && legs == None && HoldA(cfg, a, fromA) > 0
            && Reserved(l', a.assets.assetIn, User(a.who)) ==
                 Reserved(l, a.assets.assetIn, User(a.who)) + HoldA(cfg, a, fromA)
            && Free(l', a.assets.assetIn, User(a.who)) ==
                 Free(l, a.assets.assetIn, User(a.who)) - HoldA(cfg, a, fromA)
  {
    hide Fee, Legs;
    PreparedIff(cfg, l, a, b, pool, fromA, fromB);
    ReserveMoves(l, a.assets.assetIn, User(a.who), HoldA(cfg, a, fromA), a.assets.assetIn, User(a.who));
    ReserveMoves(l, a.assets.assetIn, User(a.who), HoldA(cfg, a, fromA), a.assets.assetOut, User(b.who));
    hide Free, Reserve, Reserved;
  }

  // In place.

  /** A direct trade while it is being settled on the market maker's ledger. */
  class Trade {
    const bank: Bank
    const a: Intention
    const b: Intention
    const fromA: nat
    const fromB: nat
    var transfers: seq<Leg>

    constructor (bank: Bank, a: Intention, b: Intention, fromA: nat, fromB: nat)
      ensures this.bank == bank && this.a == a && this.b == b && this.fromA == fromA && this.fromB == fromB
      ensures transfers == []
    {
      this.bank, this.a, this.b, this.fromA, this.fromB := bank, a, b, fromA, fromB;
      transfers := [];
    }

    method ReserveIfCan(asset: AssetId, who: AccountId, amount: nat) returns (ok: bool)
      modifies bank
      ensures ok <==> Reserve(old(bank.ledger), asset, who, amount).Some?
      ensures bank.ledger == if ok then Reserve(old(bank.ledger), asset, who, amount).value else old(bank.ledger)
    {
      var l := Reserve(bank.ledger, asset, who, amount);
      ok := l.Some?;
      if ok { bank.ledger := l.value; }
    }

    method Prepare(cfg: Xyk.Config, pool: AccountId) returns (ok: bool)
      requires transfers == []
      modifies this, bank
      ensures (bank.ledger, if ok then Some(transfers) else None) ==
              Prepared(cfg, old(bank.ledger), a, b, pool, fromA, fromB)
      ensures !ok ==> transfers == []
    {
      hide Fee, Free, Reserve;
      var A, B := User(a.who), User(b.who);
      if Free(bank.ledger, a.assets.assetIn, A) < fromA { return false; }
      if Free(bank.ledger, a.assets.assetOut, B) < fromB { return false; }
      var feeOptA, feeOptB := Fee(cfg, fromA), Fee(cfg, fromB);
      if feeOptA.None? || feeOptB.None? { return false; }
      var feeA, feeB := feeOptA.value, feeOptB.value;
      if feeA > fromA || feeB > fromB { return false; }
      match (a.isSell, b.isSell) {
        case (true, true) =>
          ok := ReserveIfCan(a.assets.assetIn, A, fromA);
          if !ok { return; }
          ok := ReserveIfCan(a.assets.assetOut, B, fromB);
          if !ok { return; }
          transfers := transfers + [Leg(A, B, a.assets.assetIn, fromA - feeA, false)];
          transfers := transfers + [Leg(B, A, a.assets.assetOut, fromB - feeB, false)];
          transfers := transfers + [Leg(A, pool, a.assets.assetIn, feeA, true)];
          transfers := transfers + [Leg(B, pool, b.assets.assetIn, feeB, true)];
        case (false, false) =>
          ok := ReserveIfCan(a.assets.assetIn, A, fromA + feeA);
          if !ok { return; }
          ok := ReserveIfCan(a.assets.assetOut, B, fromB + feeB);
          if !ok { return; }
          transfers := transfers + [Leg(A, B, a.assets.assetIn, fromA, false)];
          transfers := transfers + [Leg(B, A, a.assets.assetOut, fromB, false)];
          transfers := transfers + [Leg(A, pool, a.assets.assetIn, feeA, true)];
          transfers := transfers + [Leg(B, pool, b.assets.assetIn, feeB, true)];
        case (false, true) =>
          ok := ReserveIfCan(a.assets.assetIn, A, fromA + feeA);
          if !ok { return; }
          ok := ReserveIfCan(a.assets.assetOut, B, fromB);
          if !ok { return; }
          transfers := transfers + [Leg(A, B, a.assets.assetIn, fromA - feeA, false)];
          transfers := transfers + [Leg(B, A, a.assets.assetOut, fromB, false)];
          transfers := transfers + [Leg(A, pool, a.assets.assetIn, 2 * feeA, true)];
        case (true, false) =>
          ok := ReserveIfCan(a.assets.assetIn, A, fromA);
          if !ok { return; }
          ok := ReserveIfCan(a.assets.assetOut, B, fromB + feeB);
          if !ok { return; }
          transfers := transfers + [Leg(A, B, a.assets.assetIn, fromA, false)];
          transfers := transfers + [Leg(B, A, a.assets.assetOut, fromB - feeB, false)];
          transfers := transfers + [Leg(B, pool, b.assets.assetIn, 2 * feeB, true)];
      }
      assert transfers == Legs(a, b, pool, fromA, fromB, feeA, feeB);
    }

    method Execute()
      modifies bank
      ensures bank.ledger == Executed(old(bank.ledger), transfers)
    {
      for i := 0 to |transfers|
        invariant bank.ledger == Executed(old(bank.ledger), transfers[..i])
      {
        var leg := transfers[i];
        assert transfers[..i + 1][..i] == transfers[..i];
        bank.ledger := Repatriate(bank.ledger, leg.asset, leg.from, leg.to, leg.amount);
      }
      assert transfers[..|transfers|] == transfers;
    }

    method Revert()
      modifies bank
      ensures bank.ledger == Reverted(old(bank.ledger), transfers)
    {
      for i := 0 to |transfers|
        invariant bank.ledger == Reverted(old(bank.ledger), transfers[..i])
      {
        var leg := transfers[i];
        assert transfers[..i + 1][..i] == transfers[..i];
        bank.ledger := Unreserve(bank.ledger, leg.asset, leg.from, leg.amount);
      }
      assert transfers[..|transfers|] == transfers;
    }
  }

  /** The currencies, shared by the pallets of the runtime. */
  class Bank {
    var ledger: Ledger

    constructor (ledger: Ledger)
      ensures this.ledger == ledger
    {
      this.ledger := ledger;
    }
  }
}
