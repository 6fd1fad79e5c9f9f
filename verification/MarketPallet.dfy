/** The marketplace as it runs: its stores, the NFT owners and the ledger rewritten step by step. Each method does what
    the function of the same name in `Market` says. */
module MarketPallet {
  import opened Basics
  import opened Ledgers
  import opened Market
  import MarketLaws
  import opened MarketRuns

  class Pallet {
    const cfg: Config
    var prices: map<Token, nat>
    var offers: map<(Token, nat), Offer>
    var royalties: map<Token, Royalty>
    var owners: map<Token, AccountId>
    var movable: set<nat>
    var ledger: Ledger
    var block: nat
    var bonds: map<Token, nat>

    function Storage(): State
      reads this
    {
      State(prices, offers, royalties, owners, movable, ledger, block, bonds)
    }

    constructor (cfg: Config, free: map<AssetId, Book>, owners: map<Token, AccountId>, movable: set<nat>, block: nat)
      ensures this.cfg == cfg && Storage() == Genesis(free, owners, movable, block)
    {
      this.cfg, this.owners, this.movable, this.block := cfg, owners, movable, block;
      prices, offers, royalties, bonds := map[], map[], map[], map[];
      ledger := Ledger(free, map[]);
    }

    method Restore(s: State)
      modifies this
      ensures Storage() == s
    {
      prices, offers, royalties, owners := s.prices, s.offers, s.royalties, s.owners;
      movable, ledger, block, bonds := s.movable, s.ledger, s.block, s.bonds;
    }

    method Move(from: AccountId, to: AccountId, amount: nat) returns (r: Result<(), Error>)
      modifies `ledger
      ensures match r
              case Ok(_) => Pay(cfg, old(ledger), from, to, amount) == Ok(ledger)
              case Err(e) => Pay(cfg, old(ledger), from, to, amount) == Err(e)
    {
      var moved :- Require(Transfer(ledger, cfg.native, from, to, amount), InsufficientBalance);
      ledger := moved;
      return Ok(());
    }

    method DoBuy(buyer: nat, token: Token, isOffer: bool) returns (r: Result<(), Error>)
      modifies `ledger, `owners, `prices
      ensures Ran(Market.DoBuy(cfg, old(Storage()), buyer, token, isOffer), r, Storage())
    {
      hide Pay, PercentOf;
      if token !in owners { return Err(ClassOrInstanceUnknown); }
      var owner := owners[token];
      if User(buyer) == owner { return Err(BuyFromSelf); }
      var price: nat;
      if isOffer {
        if (token, buyer) !in offers { return Err(UnknownOffer); }
        price := offers[(token, buyer)].amount;
      } else {
        if token !in prices { return Err(NotForSale); }
        price := prices[token];
        prices := prices - {token};
      }
      if token in royalties {
        var royalty := royalties[token];
        var due := PercentOf(royalty.percent, price);
        if owner != royalty.author && royalty.percent != 0 {
          price := SaturatingSub(price, due);
          var _ :- Move(User(buyer), royalty.author, due);
        }
      }
      var _ :- Move(User(buyer), owner, price);
      if token.0 !in movable { return Err(NotPermitted); }
      owners := owners[token := User(buyer)];
      return Ok(());
    }

    method Buy(who: nat, token: Token) returns (r: Result<(), Error>)
      modifies `ledger, `owners, `prices
      ensures Ran(Market.Buy(cfg, old(Storage()), who, token), r, Storage())
    {
      hide Market.DoBuy;
      r := DoBuy(who, token, false);
    }

    method SetPrice(who: nat, token: Token, price: Option<nat>) returns (r: Result<(), Error>)
      modifies `prices
      ensures Ran(Market.SetPrice(old(Storage()), who, token, price), r, Storage())
    {
      if token !in owners || owners[token] != User(who) { return Err(NotTheTokenOwner); }
      if price.Some? { prices := prices[token := price.value]; } else { prices := prices - {token}; }
      return Ok(());
    }

    method MakeOffer(who: nat, token: Token, amount: nat, expires: nat) returns (r: Result<(), Error>)
      modifies `offers, `ledger
      ensures Ran(Market.MakeOffer(cfg, old(Storage()), who, token, amount, expires), r, Storage())
    {
      hide Reserve;
      if amount < cfg.minimumOffer { return Err(OfferTooLow); }
      if (token, who) in offers { return Err(AlreadyOffered); }
      offers := offers[(token, who) := Offer(who, amount, expires)];
      var reserved :- Require(Reserve(ledger, cfg.native, User(who), amount), InsufficientBalance);
      ledger := reserved;
      return Ok(());
    }

    method WithdrawOffer(who: nat, token: Token, maker: nat) returns (r: Result<(), Error>)
      modifies `offers, `ledger
      ensures Ran(Market.WithdrawOffer(cfg, old(Storage()), who, token, maker), r, Storage())
    {
      hide Unreserve;
      if (token, maker) !in offers { return Err(UnknownOffer); }
      var offer := offers[(token, maker)];
      if token !in owners { return Err(ClassOrInstanceUnknown); }
      if who != offer.maker && User(who) != owners[token] { return Err(WithdrawNotAuthorized); }
      ledger := Unreserve(ledger, cfg.native, User(offer.maker), offer.amount);
      offers := offers - {(token, maker)};
      return Ok(());
    }

    method AcceptOffer(who: nat, token: Token, maker: nat) returns (r: Result<(), Error>)
      modifies `offers, `ledger, `owners, `prices
      ensures Ran(Market.AcceptOffer(cfg, old(Storage()), who, token, maker), r, Storage())
    {
      hide Unreserve, Market.DoBuy;
      if token !in owners { return Err(ClassOrInstanceUnknown); }
      if User(who) != owners[token] { return Err(AcceptNotAuthorized); }
      if (token, maker) !in offers { return Err(UnknownOffer); }
      var offer := offers[(token, maker)];
      if offer.expires <= block { return Err(OfferExpired); }
      ledger := Unreserve(ledger, cfg.native, User(offer.maker), offer.amount);
      var _ :- DoBuy(offer.maker, token, true);
      offers := offers - {(token, maker)};
      return Ok(());
    }

    method AddRoyalty(who: nat, token: Token, author: AccountId, percent: nat) returns (r: Result<(), Error>)
      modifies `royalties, `ledger, `bonds
      ensures Ran(Market.AddRoyalty(cfg, old(Storage()), who, token, author, percent), r, Storage())
    {
      hide Reserve;
      if token in royalties { return Err(RoyaltyAlreadySet); }
      if percent > 100 { return Err(NotInRange); }
      if token !in owners { return Err(ClassUnknown); }
      if User(who) != owners[token] { return Err(NotPermitted); }
      var reserved :- Require(Reserve(ledger, cfg.native, User(who), cfg.royaltyBond), InsufficientBalance);
      ledger := reserved;
      royalties, bonds := royalties[token := Royalty(author, percent)], bonds[token := who];
      return Ok(());
    }

    method Perform(c: Call) returns (r: Result<(), Error>)
      modifies this
      ensures Ran(MarketRuns.Dispatch(cfg, old(Storage()), c), r, Storage())
    {
      hide Market.Buy, Market.SetPrice, Market.MakeOffer, Market.WithdrawOffer, Market.AcceptOffer, Market.AddRoyalty;
      match c
      case BuyCall(w, t) => r := Buy(w, t);
      case List(w, t, p) => r := SetPrice(w, t, p);
      case Bid(w, t, a, e) => r := MakeOffer(w, t, a, e);
      case Unbid(w, t, m) => r := WithdrawOffer(w, t, m);
      case Accept(w, t, m) => r := AcceptOffer(w, t, m);
      case SetRoyalty(w, t, a, p) => r := AddRoyalty(w, t, a, p);
      case Others(l, o, m, b) =>
        ledger, owners, movable, block := l, o, m, b;
        r := Ok(());
    }

    /** The transaction around a call: an error undoes every write. */
    method Dispatch(c: Call) returns (r: Result<(), Error>)
      modifies this
      ensures Storage() == Step(cfg, old(Storage()), c)
      ensures r.Ok? <==> MarketRuns.Dispatch(cfg, old(Storage()), c).Ok?
      ensures r.Err? ==> MarketRuns.Dispatch(cfg, old(Storage()), c) == Err(r.error)
      ensures old(MarketLaws.Inv(cfg, Storage()) && Allowed(Storage(), c)) ==> MarketLaws.Inv(cfg, Storage())
    {
      hide MarketLaws.Inv, MarketRuns.Dispatch, Allowed;
      var before := Storage();
      r := Perform(c);
      if r.Err? {
        Restore(before);
      }
      if MarketLaws.Inv(cfg, before) && Allowed(before, c) {
        StepKeepsInv(cfg, before, c);
      }
    }
  }
}
