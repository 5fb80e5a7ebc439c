/** The INR and stock ledgers: per user a currency record (available balance
    and locked amount, in paise) and per user, symbol and outcome a contract
    record (owned quantity and quantity locked by a resting exit). */
module Ledger {
  import opened Types

  datatype Cash = Cash(balance: int, locked: int)
  datatype Holding = Holding(quantity: int, locked: int)

  type Holdings = map<UserId, map<Symbol, map<Outcome, Holding>>>

  datatype Ledger = Ledger(inr: map<UserId, Cash>, stock: Holdings)

  predicate HasHolding(l: Ledger, u: UserId, s: Symbol, o: Outcome)
  {
    u in l.stock && s in l.stock[u] && o in l.stock[u][s]
  }

  function HoldingOf(l: Ledger, u: UserId, s: Symbol, o: Outcome): Holding
    requires HasHolding(l, u, s, o)
  {
    l.stock[u][s][o]
  }

  /** A user's currency, available plus locked; 0 for a user without a record. */
  function CashOf(l: Ledger, u: UserId): int
  {
    if u in l.inr then l.inr[u].balance + l.inr[u].locked else 0
  }

  /** Contracts a user holds of one outcome, owned plus locked; 0 without a record. */
  function HeldOf(l: Ledger, u: UserId, s: Symbol, o: Outcome): int
  {
    if HasHolding(l, u, s, o) then HoldingOf(l, u, s, o).quantity + HoldingOf(l, u, s, o).locked else 0
  }

  /** `r` has the currency records of `l`, except possibly those of `users`. */
  ghost predicate CashFramed(l: Ledger, r: Ledger, users: set<UserId>)
  {
    && r.inr.Keys == l.inr.Keys
    && forall u :: u in l.inr && u !in users ==> r.inr[u] == l.inr[u]
  }

  /** `r` has the contract records of `l` (which exist, and their values),
      except possibly the one of user `u` for outcome `o` of symbol `s`. */
  ghost predicate HoldingsFramed(l: Ledger, r: Ledger, u: UserId, s: Symbol, o: Outcome)
  {
    && r.stock.Keys == l.stock.Keys
    && (forall u2, s2, o2 :: (u2 != u || s2 != s || o2 != o) ==>
          (HasHolding(r, u2, s2, o2) <==> HasHolding(l, u2, s2, o2)))
    && (forall u2, s2, o2 :: (u2 != u || s2 != s || o2 != o) && HasHolding(l, u2, s2, o2) ==>
          HoldingOf(r, u2, s2, o2) == HoldingOf(l, u2, s2, o2))
  }

  /** User `u` has the same currency record and the same contract records in
      `r` as in `l`. */
  ghost predicate Untouched(l: Ledger, r: Ledger, u: UserId)
  {
    && (u in r.inr <==> u in l.inr)
    && (u in l.inr ==> r.inr[u] == l.inr[u])
    && (u in r.stock <==> u in l.stock)
    && (forall s, o :: HasHolding(r, u, s, o) <==> HasHolding(l, u, s, o))
    && (forall s, o :: HasHolding(l, u, s, o) ==> HoldingOf(r, u, s, o) == HoldingOf(l, u, s, o))
  }

  /** Adds `dBalance` to a user's available currency and `dLocked` to the
      locked currency; a user without a currency record raises. */
  function AdjustCash(l: Ledger, u: UserId, dBalance: int, dLocked: int): (r: Step<Ledger>)
    ensures r.Normal? <==> u in l.inr
    ensures r.Thrown? ==> r.fault == NoCashAccount(u) && r.state == l
    ensures r.Normal? ==>
      && r.state.stock == l.stock
      && CashFramed(l, r.state, {u})
      && r.state.inr[u].balance - l.inr[u].balance == dBalance
      && r.state.inr[u].locked - l.inr[u].locked == dLocked
      && CashOf(r.state, u) == CashOf(l, u) + dBalance + dLocked
  {
    if u !in l.inr then Thrown(NoCashAccount(u), l)
    else
      var c := l.inr[u];
      Normal(l.(inr := l.inr[u := Cash(c.balance + dBalance, c.locked + dLocked)]))
  }

  /** Adds `dQuantity` to the owned and `dLocked` to the locked contracts of an
      existing record; a missing record raises. */
  function AdjustHolding(l: Ledger, u: UserId, s: Symbol, o: Outcome, dQuantity: int, dLocked: int): (r: Step<Ledger>)
    ensures r.Normal? <==> HasHolding(l, u, s, o)
    ensures r.Thrown? ==> r.fault == NoHolding(u, s, o) && r.state == l
    ensures r.Normal? ==>
      && r.state.inr == l.inr
      && HoldingsFramed(l, r.state, u, s, o)
      && HasHolding(r.state, u, s, o)
      && HoldingOf(r.state, u, s, o).quantity - HoldingOf(l, u, s, o).quantity == dQuantity
      && HoldingOf(r.state, u, s, o).locked - HoldingOf(l, u, s, o).locked == dLocked
      && HeldOf(r.state, u, s, o) == HeldOf(l, u, s, o) + dQuantity + dLocked
  {
    if !HasHolding(l, u, s, o) then Thrown(NoHolding(u, s, o), l)
    else
      var h := l.stock[u][s][o];
      var h' := Holding(h.quantity + dQuantity, h.locked + dLocked);
      Normal(l.(stock := l.stock[u := l.stock[u][s := l.stock[u][s][o := h']]]))
  }

  /** Credits `q` owned contracts, creating the symbol entry and the record
      (with nothing locked) when absent; a user without any stock entry raises. */
  function CreditHolding(l: Ledger, u: UserId, s: Symbol, o: Outcome, q: int): (r: Step<Ledger>)
    ensures r.Normal? <==> u in l.stock
    ensures r.Thrown? ==> r.fault == NoStockAccount(u) && r.state == l
    ensures r.Normal? ==>
      && r.state.inr == l.inr
      && HoldingsFramed(l, r.state, u, s, o)
      && HasHolding(r.state, u, s, o)
      && HoldingOf(r.state, u, s, o).quantity == (if HasHolding(l, u, s, o) then HoldingOf(l, u, s, o).quantity else 0) + q
      && HoldingOf(r.state, u, s, o).locked == (if HasHolding(l, u, s, o) then HoldingOf(l, u, s, o).locked else 0)
      && HeldOf(r.state, u, s, o) == HeldOf(l, u, s, o) + q
  {
    if u !in l.stock then Thrown(NoStockAccount(u), l)
    else
      var byUser := l.stock[u];
      var bySymbol := if s in byUser then byUser[s] else map[];
      var h := if o in bySymbol then Holding(bySymbol[o].quantity + q, bySymbol[o].locked) else Holding(q, 0);
      Normal(l.(stock := l.stock[u := byUser[s := bySymbol[o := h]]]))
  }
}
