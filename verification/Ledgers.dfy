/** The multi-currency ledger behind every pallet: free and reserved balances per asset and account.
    Existential deposits are not modelled. */
module Ledgers {
  import opened Basics
  import opened Sums

  type AssetId = nat

  /** Accounts. The constructors make the runtime's hash-derived accounts distinct, and only `User`
      accounts can sign a call. */
  datatype AccountId =
    | User(id: nat)
    | MiningPallet
    | MiningPool(pool: nat)
    | XykPair(lo: AssetId, hi: AssetId)
    | LbpPair(lo: AssetId, hi: AssetId)

  datatype AssetPair = AssetPair(assetIn: AssetId, assetOut: AssetId) {
    function Lo(): AssetId { if assetIn <= assetOut then assetIn else assetOut }
    function Hi(): AssetId { if assetIn <= assetOut then assetOut else assetIn }
    function Flip(): AssetPair { AssetPair(assetOut, assetIn) }
  }

  type Book = map<AccountId, nat>

  datatype Ledger = Ledger(free: map<AssetId, Book>, reserved: map<AssetId, Book>)

  function BookOf(books: map<AssetId, Book>, asset: AssetId): Book {
    if asset in books then books[asset] else map[]
  }

  function Balance(book: Book, who: AccountId): nat {
    if who in book then book[who] else 0
  }

  function Free(l: Ledger, asset: AssetId, who: AccountId): nat { Balance(BookOf(l.free, asset), who) }
  function Reserved(l: Ledger, asset: AssetId, who: AccountId): nat { Balance(BookOf(l.reserved, asset), who) }

  function SetFree(l: Ledger, asset: AssetId, who: AccountId, amount: nat): Ledger {
    l.(free := l.free[asset := BookOf(l.free, asset)[who := amount]])
  }

  function SetReserved(l: Ledger, asset: AssetId, who: AccountId, amount: nat): Ledger {
    l.(reserved := l.reserved[asset := BookOf(l.reserved, asset)[who := amount]])
  }

  /** Fails exactly when the sender is short; moving nothing, or to oneself, changes nothing. */
  function Transfer(l: Ledger, asset: AssetId, from: AccountId, to: AccountId, amount: nat): (r: Option<Ledger>)
    ensures r.Some? <==> amount == 0 || from == to || amount <= Free(l, asset, from)
    ensures r.Some? && from != to ==>
              Free(r.value, asset, from) == Free(l, asset, from) - amount &&
              Free(r.value, asset, to) == Free(l, asset, to) + amount
  {
    if amount == 0 || from == to then Some(l)
    else if Free(l, asset, from) < amount then None
    else
      var l' := SetFree(l, asset, from, Free(l, asset, from) - amount);
      Some(SetFree(l', asset, to, Free(l', asset, to) + amount))
  }

  /** Mint. */
  function Deposit(l: Ledger, asset: AssetId, who: AccountId, amount: nat): Ledger {
    SetFree(l, asset, who, Free(l, asset, who) + amount)
  }

  /** Burn. */
  function Withdraw(l: Ledger, asset: AssetId, who: AccountId, amount: nat): (r: Option<Ledger>)
    ensures r.Some? <==> amount <= Free(l, asset, who)
  {
    if Free(l, asset, who) < amount then None
    else Some(SetFree(l, asset, who, Free(l, asset, who) - amount))
  }

  function Reserve(l: Ledger, asset: AssetId, who: AccountId, amount: nat): (r: Option<Ledger>)
    ensures r.Some? <==> amount <= Free(l, asset, who)
  {
    if Free(l, asset, who) < amount then None
    else
      var l' := SetFree(l, asset, who, Free(l, asset, who) - amount);
      Some(SetReserved(l', asset, who, Reserved(l', asset, who) + amount))
  }

  /** Moves back what is there, up to `amount`. */
  function Unreserve(l: Ledger, asset: AssetId, who: AccountId, amount: nat): Ledger {
    var actual := Min(amount, Reserved(l, asset, who));
    var l' := SetReserved(l, asset, who, Reserved(l, asset, who) - actual);
    SetFree(l', asset, who, Free(l', asset, who) + actual)
  }

  /** Moves reserved funds of `from`, up to `amount`, to the free balance of `to`. */
  function Repatriate(l: Ledger, asset: AssetId, from: AccountId, to: AccountId, amount: nat): Ledger {
    var actual := Min(amount, Reserved(l, asset, from));
    var l' := SetReserved(l, asset, from, Reserved(l, asset, from) - actual);
    SetFree(l', asset, to, Free(l', asset, to) + actual)
  }

  /** Total issuance of an asset: what all accounts hold, free and reserved. */
  ghost function Supply(l: Ledger, asset: AssetId): int {
    Sum(BookOf(l.free, asset)) + Sum(BookOf(l.reserved, asset))
  }

  lemma SetBook(book: Book, who: AccountId, amount: nat)
    ensures Sum(book[who := amount]) == Sum(book) - Balance(book, who) + amount
  {
    if who in book {
      SumUpdate(book, who, amount);
    } else {
      SumInsert(book, who, amount);
    }
  }

  lemma SetFreeSupply(l: Ledger, asset: AssetId, who: AccountId, amount: nat, a: AssetId)
    ensures Supply(SetFree(l, asset, who, amount), a) ==
            Supply(l, a) + if a == asset then amount - Free(l, asset, who) else 0
  {
    SetBook(BookOf(l.free, asset), who, amount);
  }

  lemma SetReservedSupply(l: Ledger, asset: AssetId, who: AccountId, amount: nat, a: AssetId)
    ensures Supply(SetReserved(l, asset, who, amount), a) ==
            Supply(l, a) + if a == asset then amount - Reserved(l, asset, who) else 0
  {
    SetBook(BookOf(l.reserved, asset), who, amount);
  }

  /** Transfers conserve every asset. */
  lemma TransferConserves(l: Ledger, asset: AssetId, from: AccountId, to: AccountId, amount: nat, a: AssetId)
    requires Transfer(l, asset, from, to, amount).Some?
    ensures Supply(Transfer(l, asset, from, to, amount).value, a) == Supply(l, a)
  {
    if amount != 0 && from != to {
      var l' := SetFree(l, asset, from, Free(l, asset, from) - amount);
      SetFreeSupply(l, asset, from, Free(l, asset, from) - amount, a);
      SetFreeSupply(l', asset, to, Free(l', asset, to) + amount, a);
    }
  }

  lemma ReserveConserves(l: Ledger, asset: AssetId, who: AccountId, amount: nat, a: AssetId)
    requires Reserve(l, asset, who, amount).Some?
    ensures Supply(Reserve(l, asset, who, amount).value, a) == Supply(l, a)
  {
    var l' := SetFree(l, asset, who, Free(l, asset, who) - amount);
    SetFreeSupply(l, asset, who, Free(l, asset, who) - amount, a);
    SetReservedSupply(l', asset, who, Reserved(l', asset, who) + amount, a);
  }

  lemma UnreserveConserves(l: Ledger, asset: AssetId, who: AccountId, amount: nat, a: AssetId)
    ensures Supply(Unreserve(l, asset, who, amount), a) == Supply(l, a)
  {
    RepatriateConserves(l, asset, who, who, amount, a);
  }

  lemma RepatriateConserves(l: Ledger, asset: AssetId, from: AccountId, to: AccountId, amount: nat, a: AssetId)
    ensures Supply(Repatriate(l, asset, from, to, amount), a) == Supply(l, a)
  {
    var actual := Min(amount, Reserved(l, asset, from));
    var l' := SetReserved(l, asset, from, Reserved(l, asset, from) - actual);
    SetReservedSupply(l, asset, from, Reserved(l, asset, from) - actual, a);
    SetFreeSupply(l', asset, to, Free(l', asset, to) + actual, a);
  }

  lemma WithdrawBurns(l: Ledger, asset: AssetId, who: AccountId, amount: nat, a: AssetId)
    requires Withdraw(l, asset, who, amount).Some?
    ensures Supply(Withdraw(l, asset, who, amount).value, a) == Supply(l, a) - if a == asset then amount else 0
  {
    SetFreeSupply(l, asset, who, Free(l, asset, who) - amount, a);
  }

  lemma DepositMints(l: Ledger, asset: AssetId, who: AccountId, amount: nat, a: AssetId)
    ensures Supply(Deposit(l, asset, who, amount), a) == Supply(l, a) + if a == asset then amount else 0
  {
    SetFreeSupply(l, asset, who, Free(l, asset, who) + amount, a);
  }

  // What each operation moves, account by account.

  lemma TransferMoves(l: Ledger, asset: AssetId, from: AccountId, to: AccountId, amount: nat, x: AssetId, w: AccountId)
    requires Transfer(l, asset, from, to, amount).Some?
    ensures var l' := Transfer(l, asset, from, to, amount).value;
            && Free(l', x, w) ==
                 Free(l, x, w) -
                 (if x == asset && w == from then amount else 0) + (if x == asset && w == to then amount else 0)
            && l'.reserved == l.reserved
  {
  }

  lemma ReserveMoves(l: Ledger, asset: AssetId, who: AccountId, amount: nat, x: AssetId, w: AccountId)
    requires amount <= Free(l, asset, who)
    ensures var l' := Reserve(l, asset, who, amount).value;
            && Reserved(l', x, w) == Reserved(l, x, w) + (if x == asset && w == who then amount else 0)
            && Free(l', x, w) == Free(l, x, w) - if x == asset && w == who then amount else 0
  {
  }

  /** A covered repatriation moves everything it is asked to; to oneself it is an unreservation. */
  lemma RepatriateMoves(l: Ledger, asset: AssetId, from: AccountId, to: AccountId, amount: nat, x: AssetId,
                        w: AccountId)
    requires amount <= Reserved(l, asset, from)
    ensures var l' := Repatriate(l, asset, from, to, amount);
            && Reserved(l', x, w) == Reserved(l, x, w) - (if x == asset && w == from then amount else 0)
            && Free(l', x, w) == Free(l, x, w) + if x == asset && w == to then amount else 0
    ensures Unreserve(l, asset, from, amount) == Repatriate(l, asset, from, from, amount)
  {
  }
}
