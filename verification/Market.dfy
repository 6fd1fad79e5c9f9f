/** The NFT marketplace: listings, offers backed by a named reserve, and royalties with a bond. Storage is a value and a
    call a function to the next storage or an error; `MarketPallet` runs the same calls in place. */
module Market {
  import opened Basics
  import opened Ledgers

  datatype Config = Config(native: AssetId, minimumOffer: nat, royaltyBond: nat)

  type Token = (nat, nat)   // class and instance

  datatype Offer = Offer(maker: nat, amount: nat, expires: nat)
  datatype Royalty = Royalty(author: AccountId, percent: nat)

  datatype State = State(
    prices: map<Token, nat>,
    offers: map<(Token, nat), Offer>,     // by token and maker
    royalties: map<Token, Royalty>,
    owners: map<Token, AccountId>,        // the NFT pallet
    movable: set<nat>,                    // its classes that may be transferred
    ledger: Ledger,                       // `reserved` is the marketplace's named reserve
    block: nat,
    bonds: map<Token, nat>)               // history: who added the royalty

  datatype Error =
    | NotTheTokenOwner | BuyFromSelf | NotForSale | ClassOrInstanceUnknown | OfferTooLow | UnknownOffer | OfferExpired
    | AlreadyOffered | WithdrawNotAuthorized | AcceptNotAuthorized | RoyaltyAlreadySet | NotInRange
    | ClassUnknown | NotPermitted | InsufficientBalance

  /** `Percent * amount`: to the nearest, and down in the middle. */
  function PercentOf(percent: nat, amount: nat): nat { (percent * amount + 49) / 100 }

  function Pay(cfg: Config, l: Ledger, from: AccountId, to: AccountId, amount: nat): Result<Ledger, Error> {
    Require(Transfer(l, cfg.native, from, to, amount), InsufficientBalance)
  }

  /** What the author gets out of a price when `owner` sells. */
  function RoyaltyDue(s: State, token: Token, owner: AccountId, price: nat): nat {
    if token in s.royalties && owner != s.royalties[token].author && s.royalties[token].percent != 0
    then PercentOf(s.royalties[token].percent, price) else 0
  }

  function PayRoyalty(cfg: Config, s: State, token: Token, owner: AccountId, buyer: AccountId,
                      price: nat): Result<Ledger, Error>
  {
    if token in s.royalties && owner != s.royalties[token].author && s.royalties[token].percent != 0
    then Pay(cfg, s.ledger, buyer, s.royalties[token].author, RoyaltyDue(s, token, owner, price)) else Ok(s.ledger)
  }

  function DoBuy(cfg: Config, s: State, buyer: nat, token: Token, isOffer: bool): Result<State, Error> {
    if token !in s.owners then Err(ClassOrInstanceUnknown)
    else
      var owner := s.owners[token];
      :- Need(User(buyer) != owner, BuyFromSelf);
      var price :- Require(
        if isOffer then (if (token, buyer) in s.offers then Some(s.offers[(token, buyer)].amount) else None)
        else if token in s.prices then Some(s.prices[token]) else None,
        if isOffer then UnknownOffer else NotForSale);
      var l1 :- PayRoyalty(cfg, s, token, owner, User(buyer), price);
      var l2 :- Pay(cfg, l1, User(buyer), owner, SaturatingSub(price, RoyaltyDue(s, token, owner, price)));
      :- Need(token.0 in s.movable, NotPermitted);
      Ok(s.(ledger := l2, owners := s.owners[token := User(buyer)],
            prices := if isOffer then s.prices else s.prices - {token}))
  }

  function Buy(cfg: Config, s: State, who: nat, token: Token): Result<State, Error> { DoBuy(cfg, s, who, token, false) }

  function SetPrice(s: State, who: nat, token: Token, price: Option<nat>): Result<State, Error> {
    if token !in s.owners || s.owners[token] != User(who) then Err(NotTheTokenOwner)
    else Ok(s.(prices := if price.Some? then s.prices[token := price.value] else s.prices - {token}))
  }

  function MakeOffer(cfg: Config, s: State, who: nat, token: Token, amount: nat, expires: nat): Result<State, Error> {
    if amount < cfg.minimumOffer then Err(OfferTooLow)
    else if (token, who) in s.offers then Err(AlreadyOffered)
    else
      var l :- Require(Reserve(s.ledger, cfg.native, User(who), amount), InsufficientBalance);
      Ok(s.(offers := s.offers[(token, who) := Offer(who, amount, expires)], ledger := l))
  }

  function WithdrawOffer(cfg: Config, s: State, who: nat, token: Token, maker: nat): Result<State, Error> {
    if (token, maker) !in s.offers then Err(UnknownOffer)
    else
      var offer := s.offers[(token, maker)];
      :- Need(token in s.owners, ClassOrInstanceUnknown);
      :- Need(who == offer.maker || User(who) == s.owners[token], WithdrawNotAuthorized);
      Ok(s.(offers := s.offers - {(token, maker)},
            ledger := Unreserve(s.ledger, cfg.native, User(offer.maker), offer.amount)))
  }

  /** The escrow is freed, the sale is made at the offered amount, and the offer is gone; a listing stays. */
  function AcceptOffer(cfg: Config, s: State, who: nat, token: Token, maker: nat): Result<State, Error> {
    if token !in s.owners then Err(ClassOrInstanceUnknown)
    else
      :- Need(User(who) == s.owners[token], AcceptNotAuthorized);
      if (token, maker) !in s.offers then Err(UnknownOffer)
      else
        var offer := s.offers[(token, maker)];
        :- Need(offer.expires > s.block, OfferExpired);
        var freed := s.(ledger := Unreserve(s.ledger, cfg.native, User(offer.maker), offer.amount));
        var sold :- DoBuy(cfg, freed, offer.maker, token, true);
        Ok(sold.(offers := sold.offers - {(token, maker)}))
  }

  function AddRoyalty(cfg: Config, s: State, who: nat, token: Token, author: AccountId,
                      percent: nat): Result<State, Error>
  {
    if token in s.royalties then Err(RoyaltyAlreadySet)
    else if percent > 100 then Err(NotInRange)
    else if token !in s.owners then Err(ClassUnknown)
    else if User(who) != s.owners[token] then Err(NotPermitted)
    else
      var l :- Require(Reserve(s.ledger, cfg.native, User(who), cfg.royaltyBond), InsufficientBalance);
      Ok(s.(royalties := s.royalties[token := Royalty(author, percent)], ledger := l, bonds := s.bonds[token := who]))
  }
}
