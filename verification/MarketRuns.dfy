/** Runs of the marketplace. */
module MarketRuns {
  import opened Basics
  import opened Sums
  import opened Ledgers
  import opened Market
  import opened MarketLaws

  datatype Call =
    | BuyCall(who: nat, token: Token)
    | List(who: nat, token: Token, price: Option<nat>)
    | Bid(who: nat, token: Token, amount: nat, expires: nat)
    | Unbid(who: nat, token: Token, maker: nat)
    | Accept(who: nat, token: Token, maker: nat)
    | SetRoyalty(who: nat, token: Token, author: AccountId, percent: nat)
    // other pallets, NFTs minted, moved and burnt, and time
    | Others(ledger: Ledger, owners: map<Token, AccountId>, movable: set<nat>, block: nat)

  function Dispatch(cfg: Config, s: State, c: Call): Result<State, Error> {
    match c
    case BuyCall(w, t) => Buy(cfg, s, w, t)
    case List(w, t, p) => SetPrice(s, w, t, p)
    case Bid(w, t, a, e) => MakeOffer(cfg, s, w, t, a, e)
    case Unbid(w, t, m) => WithdrawOffer(cfg, s, w, t, m)
    case Accept(w, t, m) => AcceptOffer(cfg, s, w, t, m)
    case SetRoyalty(w, t, a, p) => AddRoyalty(cfg, s, w, t, a, p)
    case Others(l, o, m, b) => Ok(s.(ledger := l, owners := o, movable := m, block := b))
  }

  /** A failed call changes nothing. */
  function Step(cfg: Config, s: State, c: Call): State {
    match Dispatch(cfg, s, c)
    case Ok(s') => s'
    case Err(_) => s
  }

  /** Other pallets leave the marketplace's named reserve alone. */
  predicate Allowed(s: State, c: Call) { c.Others? ==> c.ledger.reserved == s.ledger.reserved }

  function Run(cfg: Config, s: State, calls: seq<Call>): State
    decreases |calls|
  {
    if calls == [] then s else Run(cfg, Step(cfg, s, calls[0]), calls[1..])
  }

  predicate AllowedRun(cfg: Config, s: State, calls: seq<Call>)
    decreases |calls|
  {
    calls != [] ==> Allowed(s, calls[0]) && AllowedRun(cfg, Step(cfg, s, calls[0]), calls[1..])
  }

  lemma StepKeepsInv(cfg: Config, s: State, c: Call)
    requires Inv(cfg, s) && Allowed(s, c)
    ensures Inv(cfg, Step(cfg, s, c))
  {
    hide Inv, Buy, MakeOffer, WithdrawOffer, AcceptOffer, AddRoyalty, Free, Reserved, Supply, RoyaltyDue;
    var r := Dispatch(cfg, s, c);
    if r.Ok? {
      var s' := r.value;
      match c
      case BuyCall(w, t) => BuyKeeps(cfg, s, w, t, s');
      case List(_, _, _) => SameEscrow(cfg, s, s');
      case Bid(w, t, a, e) => MakeOfferKeeps(cfg, s, w, t, a, e, s');
      case Unbid(w, t, m) => WithdrawOfferKeeps(cfg, s, w, t, m, s');
      case Accept(w, t, m) => AcceptExact(cfg, s, w, t, m, s');
      case SetRoyalty(w, t, a, p) => AddRoyaltyKeeps(cfg, s, w, t, a, p, s');
      case Others(_, _, _, _) => SameEscrow(cfg, s, s');
    }
  }

  lemma {:induction false} RunKeepsInv(cfg: Config, s: State, calls: seq<Call>)
    requires Inv(cfg, s) && AllowedRun(cfg, s, calls)
    ensures Inv(cfg, Run(cfg, s, calls))
    decreases |calls|
  {
    hide Inv, Step;
    if calls != [] {
      StepKeepsInv(cfg, s, calls[0]);
      RunKeepsInv(cfg, Step(cfg, s, calls[0]), calls[1..]);
    }
  }

  function Genesis(free: map<AssetId, Book>, owners: map<Token, AccountId>, movable: set<nat>, block: nat): State {
    State(map[], map[], map[], owners, movable, Ledger(free, map[]), block, map[])
  }

  /** In every reachable state the named reserve of each account is the sum of its live offers plus one bond per royalty
      it added. */
  lemma ReachableEscrow(cfg: Config, free: map<AssetId, Book>, owners: map<Token, AccountId>, movable: set<nat>,
                        block: nat, calls: seq<Call>, who: nat)
    requires AllowedRun(cfg, Genesis(free, owners, movable, block), calls)
    ensures var s := Run(cfg, Genesis(free, owners, movable, block), calls);
            && Reserved(s.ledger, cfg.native, User(who)) ==
                 Sum(OfferView(s.offers, who)) + Sum(BondView(s.bonds, who, cfg.royaltyBond))
            && s.bonds.Keys == s.royalties.Keys
  {
    var s := Genesis(free, owners, movable, block);
    forall w
      ensures Escrowed(cfg, s, w)
    {
      assert OfferView(map[], w) == map[] && BondView(map[], w, cfg.royaltyBond) == map[];
    }
    RunKeepsInv(cfg, s, calls);
    hide Run, AllowedRun, Reserved;
    assert Escrowed(cfg, Run(cfg, s, calls), who);
  }

  // Offers on a burnt token.

  /** The token does not exist anywhere along the run. */
  predicate StaysBurnt(cfg: Config, s: State, calls: seq<Call>, token: Token)
    decreases |calls|
  {
    token !in s.owners && (calls != [] ==> StaysBurnt(cfg, Step(cfg, s, calls[0]), calls[1..], token))
  }

  lemma OfferSurvives(cfg: Config, s: State, c: Call, token: Token, maker: nat)
    requires token !in s.owners && (token, maker) in s.offers
    ensures (token, maker) in Step(cfg, s, c).offers
    ensures Step(cfg, s, c).offers[(token, maker)] == s.offers[(token, maker)]
  {
    hide PayRoyalty, Pay, Free, Reserve, Unreserve, RoyaltyDue;
  }

  /** While a token is burnt, nobody can withdraw or accept an offer on it, and its escrow stays reserved. */
  lemma {:induction false} BurntTokenStrands(cfg: Config, s: State, calls: seq<Call>, token: Token, maker: nat,
                                             who: nat)
    requires Inv(cfg, s) && AllowedRun(cfg, s, calls) && StaysBurnt(cfg, s, calls, token) && (token, maker) in s.offers
    ensures var s' := Run(cfg, s, calls);
            && (token, maker) in s'.offers && s'.offers[(token, maker)] == s.offers[(token, maker)]
            && WithdrawOffer(cfg, s', who, token, maker).Err? && AcceptOffer(cfg, s', who, token, maker).Err?
            && s.offers[(token, maker)].amount <= Reserved(s'.ledger, cfg.native, User(maker))
    decreases |calls|
  {
    hide Inv, Step, Reserved;
    if calls == [] {
      OfferCovered(cfg, s, (token, maker));
    } else {
      OfferSurvives(cfg, s, calls[0], token, maker);
      StepKeepsInv(cfg, s, calls[0]);
      BurntTokenStrands(cfg, Step(cfg, s, calls[0]), calls[1..], token, maker, who);
    }
  }

  /** An input: a bid of 100 on a token that is then burnt leaves nobody able to withdraw it, and 100 reserved. */
  lemma BurntTokenExample(cfg: Config, who: nat)
    requires cfg.minimumOffer <= 100
    ensures var token: Token := (0, 0);
            var s := Genesis(map[cfg.native := map[User(1) := 1_000]], map[token := User(2)], {0}, 1);
            var bid := Bid(1, token, 100, 50);
            var offered := Step(cfg, s, bid);
            var calls := [bid, Others(offered.ledger, map[], {0}, 2)];
            var s' := Run(cfg, s, calls);
            && AllowedRun(cfg, s, calls) && (token, 1) in s'.offers
            && WithdrawOffer(cfg, s', who, token, 1).Err? && Reserved(s'.ledger, cfg.native, User(1)) == 100
  {
    var token: Token := (0, 0);
    var s := Genesis(map[cfg.native := map[User(1) := 1_000]], map[token := User(2)], {0}, 1);
    var bid := Bid(1, token, 100, 50);
    var offered := Step(cfg, s, bid);
    assert Free(s.ledger, cfg.native, User(1)) == 1_000 && Reserved(s.ledger, cfg.native, User(1)) == 0;
    ReserveMoves(s.ledger, cfg.native, User(1), 100, cfg.native, User(1));
    var burn := Others(offered.ledger, map[], {0}, 2);
    hide Reserve, Free, Reserved;
    assert Dispatch(cfg, s, bid).Ok? && (token, 1) in offered.offers;
    var calls := [bid, burn];
    assert calls[1..] == [burn] && [burn][1..] == [];
    assert AllowedRun(cfg, Step(cfg, offered, burn), []) && AllowedRun(cfg, offered, [burn]);
    assert Run(cfg, s, calls) == Run(cfg, offered, [burn]) == Run(cfg, Step(cfg, offered, burn), []);
  }
}
