/** Matching and resolving the intentions of a block, as functions: sort, group greedily, trade directly what can be
    and send the rest to the market maker. `Exchange` runs the same steps in place. */
module Matching {
  import opened Basics
  import opened Ledgers
  import Xyk
  import opened Direct

  /** The events of the pallet; for a trade with the market maker the whole transfer. */
  datatype Event =
    | DirectTrade(idA: nat, idB: nat, fromA: nat, fromB: nat)
    | AmmTrade(id: nat, isSell: bool, transfer: Xyk.AmmTransfer)

  /** The market maker with the ledger, and the events so far. */
  datatype World = World(amm: Xyk.State, log: seq<Event>)

  function OnLedger(w: World, l: Ledger): World { w.(amm := w.amm.(ledger := l)) }

  // One intention against the market maker.

  function Validated(cfg: Xyk.Config, s: Xyk.State, i: Intention): Result<Xyk.AmmTransfer, Xyk.Error> {
    if i.isSell then Xyk.ValidateSell(cfg, s, i.who, i.assets, i.amountIn, i.tradeLimit, i.discount)
    else Xyk.ValidateBuy(cfg, s, i.who, i.assets, i.amountOut, i.tradeLimit, i.discount)
  }

  function AmmExecuted(cfg: Xyk.Config, l: Ledger, isSell: bool, t: Xyk.AmmTransfer): Result<Ledger, Xyk.Error> {
    if isSell then Xyk.ExecuteSell(cfg, l, t) else Xyk.ExecuteBuy(cfg, l, t)
  }

  /** A failed trade is rolled back and reported. */
  function ResolvedSingle(cfg: Xyk.Config, w: World, i: Intention): World {
    match Validated(cfg, w.amm, i)
    case Err(_) => w
    case Ok(t) =>
      match AmmExecuted(cfg, w.amm.ledger, i.isSell, t)
      case Err(_) => w
      case Ok(l) => OnLedger(w, l).(log := w.log + [AmmTrade(i.id, i.isSell, t)])
  }

  function ResolvedEach(cfg: Xyk.Config, w: World, rest: seq<Intention>): World
    decreases |rest|
  {
    if rest == [] then w
    else ResolvedSingle(cfg, ResolvedEach(cfg, w, rest[..|rest| - 1]), rest[|rest| - 1])
  }

  // One intention against another.

  predicate WithinLimit(i: Intention, given: nat, got: nat) {
    if i.isSell then i.tradeLimit <= got else given <= i.tradeLimit
  }

  /** Settle `fromA` against `fromB`, if both can be reserved. */
  function Settled(cfg: Xyk.Config, w: World, pool: AccountId, a: Intention, b: Intention, fromA: nat,
                   fromB: nat): (World, bool)
  {
    var (l, legs) := Prepared(cfg, w.amm.ledger, a, b, pool, fromA, fromB);
    match legs
    case None => (OnLedger(w, l), false)
    case Some(legs) => (OnLedger(w, Executed(l, legs)).(log := w.log + [DirectTrade(a.id, b.id, fromA, fromB)]), true)
  }

  /** What is left of `a` after `b` was filled from it. The limit of a buyer is an unchecked subtraction on 128 bits. */
  function LeftOf(a: Intention, b: Intention): Intention
    requires b.amountOut <= a.amountIn && b.amountIn <= a.amountOut
  {
    a.(amountIn := a.amountIn - b.amountOut,
       amountOut := a.amountOut - b.amountIn,
       tradeLimit := if a.isSell then SaturatingSub(a.tradeLimit, b.amountIn)
                     else (a.tradeLimit - b.amountOut) % (MAX_U128 + 1))
  }

  /** What is left of `b` after all of `a` was filled from it. */
  function RestOf(b: Intention, a: Intention): Intention
    requires a.amountIn <= b.amountOut && a.amountOut <= b.amountIn
  {
    b.(amountIn := b.amountIn - a.amountOut,
       amountOut := b.amountOut - a.amountIn,
       tradeLimit := SaturatingSub(b.tradeLimit, if b.isSell then a.amountIn else a.amountOut))
  }

  /** All of `a` goes to `b` directly, and the rest of `b` to the market maker by the validated `t`: both or neither. */
  function PartlySettled(cfg: Xyk.Config, w: World, pool: AccountId, a: Intention, b: Intention,
                         t: Xyk.AmmTransfer): (World, bool)
  {
    var (l, legs) := Prepared(cfg, w.amm.ledger, a, b, pool, a.amountIn, a.amountOut);
    match legs
    case None => (OnLedger(w, l), false)
    case Some(legs) =>
      match AmmExecuted(cfg, l, b.isSell, t)
      case Err(_) => (OnLedger(w, Reverted(l, legs)), false)
      case Ok(l') =>
        (OnLedger(w, Executed(l', legs)).(log := w.log + [AmmTrade(b.id, b.isSell, t),
                                                          DirectTrade(a.id, b.id, a.amountIn, a.amountOut)]),
         true)
  }

  /** One round of the matching loop on what is left, `a`, of the main intention. None is a panic. */
  function Matched(cfg: Xyk.Config, w: World, pool: AccountId, main: Intention, a: Intention,
                   b: Intention): Option<(World, Intention)>
  {
    if a.amountIn > b.amountOut then
      if !WithinLimit(b, b.amountIn, b.amountOut) then Some((w, a))
      else
        var (w', ok) := Settled(cfg, w, pool, a, b, b.amountOut, b.amountIn);
        if !ok then Some((w', a))
        else if a.amountOut < b.amountIn then None
        else Some((w', LeftOf(a, b)))
    else if a.amountIn < b.amountOut then
      if b.amountIn < a.amountOut then None
      else
        match Validated(cfg, w.amm, RestOf(b, a))
        case Err(_) => Some((w, a))
        case Ok(t) =>
          var (w', ok) := PartlySettled(cfg, w, pool, a, b, t);
          Some((w', if ok then a.(amountIn := 0) else a))
    else if !WithinLimit(main, a.amountIn, b.amountIn) || !WithinLimit(b, b.amountIn, a.amountIn) then Some((w, a))
    else
      var (w', ok) := Settled(cfg, w, pool, a, b, a.amountIn, b.amountIn);
      Some((w', if ok then a.(amountIn := 0) else a))
  }

  function MatchedAll(cfg: Xyk.Config, w: World, pool: AccountId, main: Intention,
                      group: seq<Intention>): Option<(World, Intention)>
    decreases |group|
  {
    if group == [] then Some((w, main))
    else
      match MatchedAll(cfg, w, pool, main, group[..|group| - 1])
      case None => None
      case Some((w', a)) => Matched(cfg, w', pool, main, a, group[|group| - 1])
  }

  function ResolvedMatched(cfg: Xyk.Config, w: World, pool: AccountId, main: Intention,
                           group: seq<Intention>): Option<World>
  {
    match MatchedAll(cfg, w, pool, main, group)
    case None => None
    case Some((w', a)) => Some(if a.amountIn > 0 then ResolvedSingle(cfg, w', a) else w')
  }

  // A pair.

  /** How many of `bs` it takes to use up `left`, one by one. */
  function GroupLen(bs: seq<Intention>, left: nat): (n: nat)
    ensures n <= |bs|
    decreases |bs|
  {
    if bs == [] || left == 0 then 0 else 1 + GroupLen(bs[1..], SaturatingSub(left, bs[0].amountOut))
  }

  /** Insertion from the right, behind everything not smaller. */
  function Inserted(s: seq<Intention>, x: Intention): seq<Intention>
    decreases |s|
  {
    if s == [] || s[|s| - 1].amountIn >= x.amountIn then s + [x]
    else Inserted(s[..|s| - 1], x) + [s[|s| - 1]]
  }

  /** Largest `amountIn` first; equals stay in order. */
  function Sorted(s: seq<Intention>): seq<Intention>
    decreases |s|
  {
    if s == [] then [] else Inserted(Sorted(s[..|s| - 1]), s[|s| - 1])
  }

  /** The main intentions in turn, each with its group; what remains of `bs` goes to the market maker. */
  function ProcessedFrom(cfg: Xyk.Config, w: World, pool: AccountId, mains: seq<Intention>,
                         bs: seq<Intention>): Option<World>
    decreases |mains|
  {
    if mains == [] then Some(ResolvedEach(cfg, w, bs))
    else if Validated(cfg, w.amm, mains[0]).Err? then ProcessedFrom(cfg, w, pool, mains[1..], bs)
    else
      var n := GroupLen(bs, mains[0].amountIn);
      match ResolvedMatched(cfg, w, pool, mains[0], bs[..n])
      case None => None
      case Some(w') => ProcessedFrom(cfg, w', pool, mains[1..], bs[n..])
  }

  function Processed(cfg: Xyk.Config, w: World, pool: AccountId, mains: seq<Intention>,
                     bs: seq<Intention>): Option<World>
  {
    ProcessedFrom(cfg, w, pool, Sorted(mains), Sorted(bs))
  }
}
