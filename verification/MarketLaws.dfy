/** Escrow and sales over whole runs of the marketplace. */
module MarketLaws {
  import opened Basics
  import opened Sums
  import opened Rounding
  import opened Ledgers
  import opened Market

  // Escrow.

  /** What the live offers of `who` promise, offer by offer. */
  function OfferView(offers: map<(Token, nat), Offer>, who: nat): map<(Token, nat), int> {
    map k | k in offers :: if k.1 == who then offers[k].amount else 0
  }

  /** The bonds `who` left, royalty by royalty. */
  function BondView(bonds: map<Token, nat>, who: nat, bond: nat): map<Token, int> {
    map t | t in bonds :: if bonds[t] == who then bond else 0
  }

  ghost function Escrow(cfg: Config, s: State, who: nat): int {
    Sum(OfferView(s.offers, who)) + Sum(BondView(s.bonds, who, cfg.royaltyBond))
  }

  ghost predicate Escrowed(cfg: Config, s: State, who: nat) {
    Reserved(s.ledger, cfg.native, User(who)) == Escrow(cfg, s, who)
  }

  ghost predicate Inv(cfg: Config, s: State) {
    && (forall who :: Escrowed(cfg, s, who))
    && (forall k :: k in s.offers ==> s.offers[k].maker == k.1)
    && s.bonds.Keys == s.royalties.Keys
    && (forall t :: t in s.royalties ==> s.royalties[t].percent <= 100)
  }

  lemma OfferAdded(offers: map<(Token, nat), Offer>, k: (Token, nat), o: Offer, who: nat)
    requires k !in offers
    ensures Sum(OfferView(offers[k := o], who)) == Sum(OfferView(offers, who)) + if k.1 == who then o.amount else 0
  {
    var v := if k.1 == who then o.amount else 0;
    assert OfferView(offers[k := o], who) == OfferView(offers, who)[k := v];
    SumInsert(OfferView(offers, who), k, v);
  }

  lemma OfferDropped(offers: map<(Token, nat), Offer>, k: (Token, nat), who: nat)
    requires k in offers
    ensures Sum(OfferView(offers - {k}, who)) ==
            Sum(OfferView(offers, who)) - if k.1 == who then offers[k].amount else 0
  {
    assert OfferView(offers - {k}, who) == OfferView(offers, who) - {k};
    SumRemove(OfferView(offers, who), k);
  }

  lemma BondAdded(bonds: map<Token, nat>, t: Token, maker: nat, who: nat, bond: nat)
    requires t !in bonds
    ensures Sum(BondView(bonds[t := maker], who, bond)) ==
            Sum(BondView(bonds, who, bond)) + if maker == who then bond else 0
  {
    var v := if maker == who then bond else 0;
    assert BondView(bonds[t := maker], who, bond) == BondView(bonds, who, bond)[t := v];
    SumInsert(BondView(bonds, who, bond), t, v);
  }

  /** An offer is covered by its maker's escrow. */
  lemma OfferCovered(cfg: Config, s: State, k: (Token, nat))
    requires Inv(cfg, s) && k in s.offers
    ensures s.offers[k].amount <= Reserved(s.ledger, cfg.native, User(k.1)) && s.offers[k].maker == k.1
  {
    hide Reserved;
    assert Escrowed(cfg, s, k.1);
    SumAtLeast(OfferView(s.offers, k.1), k);
    SumNonNegative(BondView(s.bonds, k.1, cfg.royaltyBond));
  }

  lemma MakeOfferKeeps(cfg: Config, s: State, who: nat, token: Token, amount: nat, expires: nat, s': State)
    requires Inv(cfg, s) && MakeOffer(cfg, s, who, token, amount, expires) == Ok(s')
    ensures Inv(cfg, s')
    ensures Free(s'.ledger, cfg.native, User(who)) == Free(s.ledger, cfg.native, User(who)) - amount
  {
    hide Free, Reserved, Reserve;
    ReserveMoves(s.ledger, cfg.native, User(who), amount, cfg.native, User(who));
    forall w
      ensures Escrowed(cfg, s', w)
    {
      assert Escrowed(cfg, s, w);
      OfferAdded(s.offers, (token, who), Offer(who, amount, expires), w);
      ReserveMoves(s.ledger, cfg.native, User(who), amount, cfg.native, User(w));
    }
  }

  lemma AddRoyaltyKeeps(cfg: Config, s: State, who: nat, token: Token, author: AccountId, percent: nat, s': State)
    requires Inv(cfg, s) && AddRoyalty(cfg, s, who, token, author, percent) == Ok(s')
    ensures Inv(cfg, s')
    ensures Free(s'.ledger, cfg.native, User(who)) == Free(s.ledger, cfg.native, User(who)) - cfg.royaltyBond
  {
    hide Free, Reserved, Reserve;
    ReserveMoves(s.ledger, cfg.native, User(who), cfg.royaltyBond, cfg.native, User(who));
    forall w
      ensures Escrowed(cfg, s', w)
    {
      assert Escrowed(cfg, s, w);
      BondAdded(s.bonds, token, who, w, cfg.royaltyBond);
      ReserveMoves(s.ledger, cfg.native, User(who), cfg.royaltyBond, cfg.native, User(w));
    }
  }

  /** Dropping an offer and freeing its amount keeps the books. */
  lemma DropKeeps(cfg: Config, s: State, k: (Token, nat), s': State)
    requires Inv(cfg, s) && k in s.offers
    requires s'.offers == s.offers - {k} && s'.bonds == s.bonds && s'.royalties == s.royalties
    requires forall w :: Reserved(s'.ledger, cfg.native, w) ==
               Reserved(s.ledger, cfg.native, w) - if w == User(k.1) then s.offers[k].amount else 0
    ensures Inv(cfg, s')
  {
    hide Reserved;
    forall w
      ensures Escrowed(cfg, s', w)
    {
      assert Escrowed(cfg, s, w);
      OfferDropped(s.offers, k, w);
    }
  }

  lemma WithdrawOfferKeeps(cfg: Config, s: State, who: nat, token: Token, maker: nat, s': State)
    requires Inv(cfg, s) && WithdrawOffer(cfg, s, who, token, maker) == Ok(s')
    ensures Inv(cfg, s') && (token, maker) in s.offers
    ensures s' == s.(offers := s.offers - {(token, maker)}, ledger := s'.ledger)
    ensures Free(s'.ledger, cfg.native, User(maker)) ==
            Free(s.ledger, cfg.native, User(maker)) + s.offers[(token, maker)].amount
  {
    hide Free, Reserved, Unreserve, Escrowed;
    var k := (token, maker);
    OfferCovered(cfg, s, k);
    RepatriateMoves(s.ledger, cfg.native, User(maker), User(maker), s.offers[k].amount, cfg.native, User(maker));
    forall w
      ensures Reserved(s'.ledger, cfg.native, w) ==
              Reserved(s.ledger, cfg.native, w) - if w == User(maker) then s.offers[k].amount else 0
    {
      RepatriateMoves(s.ledger, cfg.native, User(maker), User(maker), s.offers[k].amount, cfg.native, w);
    }
    DropKeeps(cfg, s, k, s');
  }

  /** An offer can be withdrawn exactly while its token exists, by its maker or the owner: while the token is burnt the
      escrow is stuck. */
  lemma WithdrawSucceedsIff(cfg: Config, s: State, who: nat, token: Token, maker: nat)
    requires Inv(cfg, s)
    ensures WithdrawOffer(cfg, s, who, token, maker).Ok? <==>
              (token, maker) in s.offers && token in s.owners && (who == maker || User(who) == s.owners[token])
  {
    hide Escrowed;
  }

  /** Offering and withdrawing give everybody back what they had. */
  lemma OfferRoundTrip(cfg: Config, s: State, who: nat, token: Token, amount: nat, expires: nat, offered: State,
                       w: AccountId)
    requires Inv(cfg, s) && MakeOffer(cfg, s, who, token, amount, expires) == Ok(offered) && token in s.owners
    ensures var back := WithdrawOffer(cfg, offered, who, token, who);
            && back.Ok? && back.value.offers == s.offers
            && Free(back.value.ledger, cfg.native, w) == Free(s.ledger, cfg.native, w)
            && Reserved(back.value.ledger, cfg.native, w) == Reserved(s.ledger, cfg.native, w)
  {
    hide Free, Reserved, Reserve, Unreserve, Escrowed;
    ReserveMoves(s.ledger, cfg.native, User(who), amount, cfg.native, w);
    ReserveMoves(s.ledger, cfg.native, User(who), amount, cfg.native, User(who));
    RepatriateMoves(offered.ledger, cfg.native, User(who), User(who), amount, cfg.native, w);
    assert offered.offers - {(token, who)} == s.offers;
  }

  // Sales.

  lemma RoyaltyFits(percent: nat, price: nat)
    requires percent <= 100
    ensures PercentOf(percent, price) <= price
    ensures percent * price <= 100 * PercentOf(percent, price) + 50
    ensures 100 * PercentOf(percent, price) <= percent * price + 49
  {
    MulMonotone(percent, 100, price);
  }

  lemma PayEffect(cfg: Config, l: Ledger, from: AccountId, to: AccountId, amount: nat, l': Ledger, w: AccountId)
    requires Pay(cfg, l, from, to, amount) == Ok(l')
    ensures Free(l', cfg.native, w) ==
            Free(l, cfg.native, w) - (if w == from then amount else 0) + if w == to then amount else 0
    ensures l'.reserved == l.reserved
    ensures Supply(l', cfg.native) == Supply(l, cfg.native)
  {
    TransferMoves(l, cfg.native, from, to, amount, cfg.native, w);
    TransferConserves(l, cfg.native, from, to, amount, cfg.native);
    hide Free, Supply, Transfer;
  }

  /** The books of a sale at `price` by `owner` to `buyer` with royalty `due` to `author`. */
  ghost predicate SoldFor(cfg: Config, l: Ledger, l': Ledger, buyer: AccountId, owner: AccountId,
                          author: Option<AccountId>, price: nat, due: nat)
  {
    && due <= price && l'.reserved == l.reserved && Supply(l', cfg.native) == Supply(l, cfg.native)
    && forall w :: Free(l', cfg.native, w) ==
         Free(l, cfg.native, w) - (if w == buyer then price else 0) +
         (if w == owner then price - due else 0) + (if Some(w) == author then due else 0)
  }

  /** `due` is the author's share of `price` when `owner` sells: the royalty's percentage, to the nearest unit and down
      in the middle, if there is one and the owner is not the author; otherwise nothing. */
  predicate RoyaltyOf(s: State, token: Token, owner: AccountId, price: nat, due: nat) {
    if token in s.royalties && s.royalties[token].percent > 0 && s.royalties[token].author != owner
    then s.royalties[token].percent * price <= 100 * due + 50 && 100 * due <= s.royalties[token].percent * price + 49
    else due == 0
  }

  lemma RoyaltyIs(s: State, token: Token, owner: AccountId, price: nat)
    requires forall t :: t in s.royalties ==> s.royalties[t].percent <= 100
    ensures RoyaltyOf(s, token, owner, price, RoyaltyDue(s, token, owner, price))
  {
    hide PercentOf;
    if token in s.royalties { RoyaltyFits(s.royalties[token].percent, price); }
  }

  /** The percentage leaves no choice. */
  lemma RoyaltyUnique(s: State, token: Token, owner: AccountId, price: nat, due: nat, due': nat)
    requires RoyaltyOf(s, token, owner, price, due) && RoyaltyOf(s, token, owner, price, due')
    ensures due == due'
  {
  }

  function AuthorOf(s: State, token: Token): Option<AccountId> {
    if token in s.royalties then Some(s.royalties[token].author) else None
  }

  /** A completed sale debits the buyer exactly the price, and splits all of it between the author and the owner: the
      author gets the rounded percentage unless they are the owner, and the owner the rest. (An author who buys pays
      the royalty to themselves.) The token is the buyer's, other tokens stay where they are, and only a sale at the
      listed price clears the listing. */
  lemma SaleExact(cfg: Config, s: State, buyer: nat, token: Token, isOffer: bool, s': State)
    requires forall t :: t in s.royalties ==> s.royalties[t].percent <= 100
    requires DoBuy(cfg, s, buyer, token, isOffer) == Ok(s')
    ensures token in s.owners && s.owners[token] != User(buyer) && s'.owners == s.owners[token := User(buyer)]
    ensures if isOffer then (token, buyer) in s.offers && s'.prices == s.prices
            else token in s.prices && s'.prices == s.prices - {token}
    ensures var price := if isOffer then s.offers[(token, buyer)].amount else s.prices[token];
            var owner := s.owners[token];
            && RoyaltyOf(s, token, owner, price, RoyaltyDue(s, token, owner, price))
            && SoldFor(cfg, s.ledger, s'.ledger, User(buyer), owner, AuthorOf(s, token), price,
                       RoyaltyDue(s, token, owner, price))
    ensures s' == s.(ledger := s'.ledger, owners := s'.owners, prices := s'.prices)
  {
    hide Pay, Free, Supply, PercentOf;
    var owner := s.owners[token];
    var price := if isOffer then s.offers[(token, buyer)].amount else s.prices[token];
    var due := RoyaltyDue(s, token, owner, price);
    RoyaltyIs(s, token, owner, price);
    if token in s.royalties {
      RoyaltyFits(s.royalties[token].percent, price);
    }
    var l1 := PayRoyalty(cfg, s, token, owner, User(buyer), price).value;
    RoyaltyPaid(cfg, s, token, owner, User(buyer), price, l1);
    hide RoyaltyDue, PayRoyalty;
    var l2 := s'.ledger;
    forall w
      ensures Free(l2, cfg.native, w) == Free(s.ledger, cfg.native, w) - (if w == User(buyer) then price else 0)
                + (if w == owner then price - due else 0) + (if Some(w) == AuthorOf(s, token) then due else 0)
    {
      PayEffect(cfg, l1, User(buyer), owner, price - due, l2, w);
    }
    PayEffect(cfg, l1, User(buyer), owner, price - due, l2, owner);
  }

  lemma RoyaltyPaid(cfg: Config, s: State, token: Token, owner: AccountId, buyer: AccountId, price: nat, l': Ledger)
    requires PayRoyalty(cfg, s, token, owner, buyer, price) == Ok(l')
    ensures var due := RoyaltyDue(s, token, owner, price);
            && l'.reserved == s.ledger.reserved && Supply(l', cfg.native) == Supply(s.ledger, cfg.native)
            && forall w :: Free(l', cfg.native, w) ==
                 Free(s.ledger, cfg.native, w) -
                 (if w == buyer then due else 0) + (if Some(w) == AuthorOf(s, token) then due else 0)
  {
    hide Pay, Free, Supply, PercentOf;
    var due := RoyaltyDue(s, token, owner, price);
    if token in s.royalties && owner != s.royalties[token].author && s.royalties[token].percent != 0 {
      PayEffect(cfg, s.ledger, buyer, s.royalties[token].author, due, l', buyer);
      forall w
        ensures Free(l', cfg.native, w) ==
                Free(s.ledger, cfg.native, w) -
                (if w == buyer then due else 0) + (if w == s.royalties[token].author then due else 0)
      {
        PayEffect(cfg, s.ledger, buyer, s.royalties[token].author, due, l', w);
      }
    }
  }

  lemma BuyKeeps(cfg: Config, s: State, buyer: nat, token: Token, s': State)
    requires Inv(cfg, s) && Buy(cfg, s, buyer, token) == Ok(s')
    ensures Inv(cfg, s')
  {
    hide DoBuy, Supply, Free, Escrow;
    SaleExact(cfg, s, buyer, token, false, s');
    SameEscrow(cfg, s, s');
  }

  lemma SameEscrow(cfg: Config, s: State, s': State)
    requires Inv(cfg, s) && s'.offers == s.offers && s'.royalties == s.royalties && s'.bonds == s.bonds
    requires s'.ledger.reserved == s.ledger.reserved
    ensures Inv(cfg, s')
  {
    hide Sum, OfferView, BondView;
    forall w
      ensures Escrowed(cfg, s', w)
    {
      assert Escrowed(cfg, s, w);
    }
  }

  // Accepting an offer.

  function Freed(cfg: Config, s: State, offer: Offer): State {
    s.(ledger := Unreserve(s.ledger, cfg.native, User(offer.maker), offer.amount))
  }

  /** Freeing the escrow of an offer takes exactly its amount out of the reserve and into the maker's hands. */
  lemma FreedEffect(cfg: Config, s: State, token: Token, maker: nat)
    requires Inv(cfg, s) && (token, maker) in s.offers
    ensures var offer := s.offers[(token, maker)];
            var freed := Freed(cfg, s, offer);
            && offer.maker == maker
            && (forall w :: Reserved(freed.ledger, cfg.native, w) ==
                  Reserved(s.ledger, cfg.native, w) - if w == User(maker) then offer.amount else 0)
            && (forall w :: Free(freed.ledger, cfg.native, w) ==
                  Free(s.ledger, cfg.native, w) + if w == User(maker) then offer.amount else 0)
            && Supply(freed.ledger, cfg.native) == Supply(s.ledger, cfg.native)
  {
    hide Free, Reserved, Unreserve, Escrowed, Supply;
    var offer := s.offers[(token, maker)];
    OfferCovered(cfg, s, (token, maker));
    UnreserveConserves(s.ledger, cfg.native, User(maker), offer.amount, cfg.native);
    forall w
      ensures Reserved(Freed(cfg, s, offer).ledger, cfg.native, w) ==
                Reserved(s.ledger, cfg.native, w) - if w == User(maker) then offer.amount else 0
      ensures Free(Freed(cfg, s, offer).ledger, cfg.native, w) ==
                Free(s.ledger, cfg.native, w) + if w == User(maker) then offer.amount else 0
    {
      RepatriateMoves(s.ledger, cfg.native, User(maker), User(maker), offer.amount, cfg.native, w);
    }
  }

  lemma PaySucceedsIff(cfg: Config, l: Ledger, from: AccountId, to: AccountId, amount: nat)
    ensures Pay(cfg, l, from, to, amount).Ok? <==> amount == 0 || from == to || amount <= Free(l, cfg.native, from)
  {
  }

  /** What a sale is made at. */
  function AskedPrice(s: State, buyer: nat, token: Token, isOffer: bool): Option<nat> {
    if isOffer then (if (token, buyer) in s.offers then Some(s.offers[(token, buyer)].amount) else None)
    else if token in s.prices then Some(s.prices[token]) else None
  }

  /** What the buyer has to hold: the price, or for an author who buys what the royalty leaves of it. */
  function Needed(s: State, buyer: nat, token: Token, owner: AccountId, price: nat): nat {
    if AuthorOf(s, token) == Some(User(buyer)) then SaturatingSub(price, RoyaltyDue(s, token, owner, price)) else price
  }

  /** A sale succeeds exactly when a movable token of somebody else has a price and the buyer holds what it takes. */
  lemma SaleSucceedsIff(cfg: Config, s: State, buyer: nat, token: Token, isOffer: bool)
    requires forall t :: t in s.royalties ==> s.royalties[t].percent <= 100
    ensures DoBuy(cfg, s, buyer, token, isOffer).Ok? <==>
              && token in s.owners && s.owners[token] != User(buyer) && token.0 in s.movable
              && var price := AskedPrice(s, buyer, token, isOffer);
                 && price.Some?
                 && Needed(s, buyer, token, s.owners[token], price.value) <= Free(s.ledger, cfg.native, User(buyer))
  {
    hide Pay, Free, PercentOf, Supply;
    var asked := AskedPrice(s, buyer, token, isOffer);
    if token in s.owners && s.owners[token] != User(buyer) && asked.Some? {
      var owner, price := s.owners[token], asked.value;
      var due := RoyaltyDue(s, token, owner, price);
      if token in s.royalties {
        RoyaltyFits(s.royalties[token].percent, price);
        PaySucceedsIff(cfg, s.ledger, User(buyer), s.royalties[token].author, due);
      }
      var r := PayRoyalty(cfg, s, token, owner, User(buyer), price);
      if r.Ok? {
        RoyaltyPaid(cfg, s, token, owner, User(buyer), price, r.value);
        PaySucceedsIff(cfg, r.value, User(buyer), owner, price - due);
      }
    }
  }

  /** Accepting an offer always finds the funds: it succeeds exactly when the owner accepts somebody else's live offer
      on a token that may be transferred. */
  lemma AcceptSucceedsIff(cfg: Config, s: State, who: nat, token: Token, maker: nat)
    requires Inv(cfg, s)
    ensures AcceptOffer(cfg, s, who, token, maker).Ok? <==>
              && token in s.owners && s.owners[token] == User(who)
              && (token, maker) in s.offers && s.block < s.offers[(token, maker)].expires
              && maker != who && token.0 in s.movable
  {
    hide Escrowed, Free, Reserved, Unreserve, Supply;
    if token in s.owners && s.owners[token] == User(who) &&
       (token, maker) in s.offers && s.block < s.offers[(token, maker)].expires
    {
      var freed := Freed(cfg, s, s.offers[(token, maker)]);
      FreedEffect(cfg, s, token, maker);
      SaleSucceedsIff(cfg, freed, maker, token, true);
    }
  }

  /** An accepted offer is paid out of its escrow: the reserve of the maker falls by the amount and everybody's free
      balance changes by what the sale gives them, the maker's by nothing but a royalty of their own. The
      listing stays. */
  lemma AcceptExact(cfg: Config, s: State, who: nat, token: Token, maker: nat, s': State)
    requires Inv(cfg, s) && AcceptOffer(cfg, s, who, token, maker) == Ok(s')
    ensures Inv(cfg, s') && (token, maker) in s.offers && token in s.owners && s.owners[token] == User(who)
    ensures s' == s.(offers := s.offers - {(token, maker)}, owners := s.owners[token := User(maker)],
                     ledger := s'.ledger)
    ensures var amount := s.offers[(token, maker)].amount;
            var due := RoyaltyDue(s, token, User(who), amount);
            && RoyaltyOf(s, token, User(who), amount, due)
            && due <= amount && Supply(s'.ledger, cfg.native) == Supply(s.ledger, cfg.native)
            && (forall w :: Free(s'.ledger, cfg.native, w) == Free(s.ledger, cfg.native, w) +
                  (if w == User(who) then amount - due else 0) + (if Some(w) == AuthorOf(s, token) then due else 0))
            && (forall w :: Reserved(s'.ledger, cfg.native, w) ==
                  Reserved(s.ledger, cfg.native, w) - if w == User(maker) then amount else 0)
  {
    hide Escrowed, Free, Reserved, Unreserve, Supply, DoBuy, PercentOf;
    var k := (token, maker);
    var freed := Freed(cfg, s, s.offers[k]);
    FreedEffect(cfg, s, token, maker);
    var sold := DoBuy(cfg, freed, maker, token, true).value;
    AcceptedSale(cfg, s, token, maker, sold);
    RoyaltyIs(s, token, User(who), s.offers[k].amount);
    assert s' == sold.(offers := sold.offers - {k});
    hide AcceptOffer;
    DropKeeps(cfg, s, k, s');
  }

  /** The sale made when an offer is accepted, on books whose escrow has been freed. */
  lemma AcceptedSale(cfg: Config, s: State, token: Token, maker: nat, sold: State)
    requires Inv(cfg, s) && (token, maker) in s.offers
    requires DoBuy(cfg, Freed(cfg, s, s.offers[(token, maker)]), maker, token, true) == Ok(sold)
    ensures var amount := s.offers[(token, maker)].amount;
            && token in s.owners && s.owners[token] != User(maker)
            && (var due := RoyaltyDue(s, token, s.owners[token], amount);
                && due <= amount && Supply(sold.ledger, cfg.native) == Supply(s.ledger, cfg.native)
                && (forall w :: Free(sold.ledger, cfg.native, w) == Free(s.ledger, cfg.native, w) +
                      (if w == s.owners[token] then amount - due else 0) +
                      (if Some(w) == AuthorOf(s, token) then due else 0)))
            && (forall w :: Reserved(sold.ledger, cfg.native, w) ==
                  Reserved(s.ledger, cfg.native, w) - if w == User(maker) then amount else 0)
            && sold == s.(ledger := sold.ledger, owners := s.owners[token := User(maker)])
  {
    hide Escrowed, Free, Unreserve, Supply, PercentOf, PayRoyalty, Pay;
    var offer := s.offers[(token, maker)];
    var freed := Freed(cfg, s, offer);
    FreedEffect(cfg, s, token, maker);
    SaleExact(cfg, freed, maker, token, true, sold);
  }

  // Listing, offering, adding a royalty.

  /** Only the owner lists a token, at any price, or takes it off. */
  lemma ListExact(s: State, who: nat, token: Token, price: Option<nat>)
    ensures var r := SetPrice(s, who, token, price);
            && (r.Ok? <==> token in s.owners && s.owners[token] == User(who))
            && (r.Ok? ==>
                  && r.value == s.(prices := r.value.prices)
                  && (token in r.value.prices <==> price.Some?)
                  && (price.Some? ==> r.value.prices[token] == price.value)
                  && (forall t :: t != token ==> (t in r.value.prices <==> t in s.prices))
                  && (forall t :: t != token && t in s.prices ==> r.value.prices[t] == s.prices[t]))
  {
  }

  /** Whoever holds the amount can offer at least the minimum, once per token; what is stored is that offer. */
  lemma OfferExact(cfg: Config, s: State, who: nat, token: Token, amount: nat, expires: nat, w: AccountId)
    ensures var r := MakeOffer(cfg, s, who, token, amount, expires);
            && (r.Ok? <==>
                  && (token, who) !in s.offers
                  && cfg.minimumOffer <= amount <= Free(s.ledger, cfg.native, User(who)))
            && (r.Ok? ==>
                  && r.value == s.(offers := s.offers[(token, who) := Offer(who, amount, expires)],
                                   ledger := r.value.ledger)
                  && Free(r.value.ledger, cfg.native, w) ==
                       Free(s.ledger, cfg.native, w) - (if w == User(who) then amount else 0)
                  && Reserved(r.value.ledger, cfg.native, w) ==
                       Reserved(s.ledger, cfg.native, w) + (if w == User(who) then amount else 0))
  {
    if amount <= Free(s.ledger, cfg.native, User(who)) {
      ReserveMoves(s.ledger, cfg.native, User(who), amount, cfg.native, w);
    }
    hide Free, Reserved, Reserve;
  }

  /** Only the owner of a token adds its royalty, once, up to the whole price, and puts up the bond. */
  lemma RoyaltyExact(cfg: Config, s: State, who: nat, token: Token, author: AccountId, percent: nat, w: AccountId)
    ensures var r := AddRoyalty(cfg, s, who, token, author, percent);
            && (r.Ok? <==>
                  && token in s.owners && s.owners[token] == User(who) && token !in s.royalties && percent <= 100
                  && cfg.royaltyBond <= Free(s.ledger, cfg.native, User(who)))
            && (r.Ok? ==>
                  && r.value == s.(royalties := s.royalties[token := Royalty(author, percent)],
                                   bonds := s.bonds[token := who], ledger := r.value.ledger)
                  && Free(r.value.ledger, cfg.native, w) ==
                       Free(s.ledger, cfg.native, w) - (if w == User(who) then cfg.royaltyBond else 0)
                  && Reserved(r.value.ledger, cfg.native, w) ==
                       Reserved(s.ledger, cfg.native, w) + (if w == User(who) then cfg.royaltyBond else 0))
  {
    if cfg.royaltyBond <= Free(s.ledger, cfg.native, User(who)) {
      ReserveMoves(s.ledger, cfg.native, User(who), cfg.royaltyBond, cfg.native, w);
    }
    hide Free, Reserved, Reserve;
  }
}
