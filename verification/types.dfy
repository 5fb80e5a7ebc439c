/** Vocabulary shared by the ledger, the order book and the engine of a
    binary-outcome ("yes"/"no") prediction market whose two outcome prices
    always add up to ten. */
module Types {

  type UserId = string
  type Symbol = string

  /** The two complementary outcomes of a symbol. */
  datatype Outcome = Yes | No

  /** The complementary outcome: a "yes" contract and a "no" contract form a pair. */
  function Flip(o: Outcome): (r: Outcome)
    ensures r != o
  {
    if o == Yes then No else Yes
  }

  /** Flipping twice returns the outcome one started from. */
  lemma FlipInvolutive(o: Outcome)
    ensures Flip(Flip(o)) == o
  {
  }

  /** The type of a resting order: a (pseudo) buy or an exit of owned contracts. */
  datatype OrderType = Buy | Exit

  /** The type of the incoming order that triggers a match. */
  datatype TakerType = TakerBuy | TakerSell

  /** A "yes" price and the matching "no" price add up to this. */
  const PriceSum: int := 10

  /** Prices are quoted in rupees; balances are kept in paise. */
  const PaisePerRupee: int := 100

  /** The price range a well-formed order uses. */
  predicate ValidPrice(p: int)
  {
    1 <= p <= 9
  }

  /** Paise that change hands for `q` contracts at price `p`. */
  function Cost(q: int, p: int): int
  {
    q * p * PaisePerRupee
  }

  /** Cost is additive in the quantity, so a fill split in parts costs the same. */
  lemma CostAdditive(a: int, b: int, p: int)
    ensures Cost(a, p) + Cost(b, p) == Cost(a + b, p)
  {
    assert (a + b) * p == a * p + b * p;
  }

  /** A yes contract at price p plus a no contract at price 10 - p cost exactly
      one pair's worth of collateral. */
  lemma CostOfPair(q: int, p: int)
    ensures Cost(q, p) + Cost(q, PriceSum - p) == q * PriceSum * PaisePerRupee
  {
    assert q * p + q * (PriceSum - p) == q * PriceSum;
  }

  /** The record the engine dereferences without checking it exists; reaching
      a missing one raises a TypeError in the engine. */
  datatype Fault =
    | NoCashAccount(user: UserId)
    | NoStockAccount(user: UserId)
    | NoHolding(user: UserId, symbol: Symbol, outcome: Outcome)
    | NoBookSymbol(symbol: Symbol)
    | NoBookSide(symbol: Symbol, outcome: Outcome)
    | NoLevel(symbol: Symbol, outcome: Outcome, price: int)

  /** The outcome of one engine statement sequence: it either runs to the end,
      or raises a TypeError, in which case `state` is the global state as it
      stood when the exception left the function (mutations made before the
      throw are not rolled back). */
  datatype Step<S> = Normal(state: S) | Thrown(fault: Fault, state: S)
}
