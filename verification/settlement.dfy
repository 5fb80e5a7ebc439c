/** Settlement of fills: the maker's and the taker's ledger entries for one
    fill, and a run of fills settled one after another. */
module Settlement {
  import opened Types
  import opened Ledger
  import opened Matching

  /** The outcome credited to a maker whose resting order was a (pseudo) buy:
      the flip of the taker's outcome when the taker buys, the taker's outcome
      when the taker sells. */
  function MakerOutcome(takerType: TakerType, stockType: Outcome): Outcome
  {
    if takerType == TakerBuy then Flip(stockType) else stockType
  }

  /** The book side whose resting orders an incoming order of `stockType`
      fills: a buyer takes the sells and pseudo sells resting on `stockType`;
      a seller takes the orders resting on the other outcome, whose pseudo
      sells are the resting buys of `stockType` and whose exits are settled
      as if they delivered `stockType` (SellerAgainstExitWithoutRecord). */
  function MatchedSide(takerType: TakerType, stockType: Outcome): Outcome
  {
    if takerType == TakerBuy then stockType else Flip(stockType)
  }

  /** The change to the maker's currency (available plus locked) for one fill. */
  function MakerCashDelta(makerType: OrderType, q: int, price: int): int
  {
    if makerType == Buy then -Cost(q, PriceSum - price) else Cost(q, price)
  }

  /** The change to the taker's currency for one fill. */
  function TakerCashDelta(takerType: TakerType, q: int, price: int): int
  {
    if takerType == TakerBuy then -Cost(q, price) else Cost(q, price)
  }

  /** The change to the taker's contracts of `stockType` for one fill. */
  function TakerContractDelta(takerType: TakerType, q: int): int
  {
    if takerType == TakerBuy then q else -q
  }

  lemma TakerCashDeltaAdditive(takerType: TakerType, a: int, b: int, price: int)
    ensures TakerCashDelta(takerType, a, price) + TakerCashDelta(takerType, b, price) == TakerCashDelta(takerType, a + b, price)
  {
    CostAdditive(a, b, price);
  }

  /** The records the maker's half of a fill dereferences without a check. */
  predicate MakerReady(l: Ledger, maker: UserId, s: Symbol, stockType: Outcome, makerType: OrderType)
  {
    && maker in l.inr
    && (makerType == Buy ==> maker in l.stock)
    && (makerType == Exit ==> HasHolding(l, maker, s, stockType))
  }

  /** The records the taker's half of a fill dereferences without a check. */
  predicate TakerReady(l: Ledger, taker: UserId, s: Symbol, stockType: Outcome, takerType: TakerType)
  {
    && taker in l.inr
    && (takerType == TakerBuy ==> taker in l.stock)
    && (takerType == TakerSell ==> HasHolding(l, taker, s, stockType))
  }

  /** The maker's half of a fill of `q` units at level price `price`. A resting
      buy was locked at the complementary price, so that lock is released; a
      resting exit is paid at `price` and its locked contracts are delivered. */
  function SettleMaker(l: Ledger, s: Symbol, stockType: Outcome, price: int, q: int,
                       takerType: TakerType, maker: UserId, makerType: OrderType): (r: Step<Ledger>)
    ensures r.Normal? <==> MakerReady(l, maker, s, stockType, makerType)
    ensures r.Thrown? ==> r.state.stock == l.stock
    ensures r.Thrown? ==> r.fault in {NoCashAccount(maker), NoStockAccount(maker), NoHolding(maker, s, stockType)}
    ensures r.Normal? ==> CashFramed(l, r.state, {maker})
    ensures r.Normal? ==> CashOf(r.state, maker) == CashOf(l, maker) + MakerCashDelta(makerType, q, price)
    ensures r.Normal? && makerType == Buy ==>
      && r.state.inr[maker].balance == l.inr[maker].balance
      && r.state.inr[maker].locked == l.inr[maker].locked - Cost(q, PriceSum - price)
      && HoldingsFramed(l, r.state, maker, s, MakerOutcome(takerType, stockType))
      && HasHolding(r.state, maker, s, MakerOutcome(takerType, stockType))
      && HoldingOf(r.state, maker, s, MakerOutcome(takerType, stockType)).quantity
           == (if HasHolding(l, maker, s, MakerOutcome(takerType, stockType))
               then HoldingOf(l, maker, s, MakerOutcome(takerType, stockType)).quantity else 0) + q
      && HoldingOf(r.state, maker, s, MakerOutcome(takerType, stockType)).locked
           == (if HasHolding(l, maker, s, MakerOutcome(takerType, stockType))
               then HoldingOf(l, maker, s, MakerOutcome(takerType, stockType)).locked else 0)
      && HeldOf(r.state, maker, s, MakerOutcome(takerType, stockType)) == HeldOf(l, maker, s, MakerOutcome(takerType, stockType)) + q
    ensures r.Normal? && makerType == Exit ==>
      && r.state.inr[maker].balance == l.inr[maker].balance + Cost(q, price)
      && r.state.inr[maker].locked == l.inr[maker].locked
      && HoldingsFramed(l, r.state, maker, s, stockType)
      && HasHolding(l, maker, s, stockType)
      && HasHolding(r.state, maker, s, stockType)
      && HoldingOf(r.state, maker, s, stockType).quantity == HoldingOf(l, maker, s, stockType).quantity
      && HoldingOf(r.state, maker, s, stockType).locked == HoldingOf(l, maker, s, stockType).locked - q
  {
    if makerType == Buy then
      var c := AdjustCash(l, maker, 0, -Cost(q, PriceSum - price));
      if c.Thrown? then c
      else CreditHolding(c.state, maker, s, MakerOutcome(takerType, stockType), q)
    else
      var c := AdjustCash(l, maker, Cost(q, price), 0);
      if c.Thrown? then c
      else AdjustHolding(c.state, maker, s, stockType, 0, -q)
  }

  /** The taker's half of a fill: a buyer pays and receives contracts of
      `stockType` (the record is created when absent); a seller is paid and
      delivers owned contracts. */
  function SettleTaker(l: Ledger, s: Symbol, stockType: Outcome, price: int, q: int,
                       taker: UserId, takerType: TakerType): (r: Step<Ledger>)
    ensures r.Normal? <==> TakerReady(l, taker, s, stockType, takerType)
    ensures r.Thrown? ==> r.state.stock == l.stock
    ensures r.Thrown? ==> r.fault in {NoCashAccount(taker), NoStockAccount(taker), NoHolding(taker, s, stockType)}
    ensures r.Normal? ==>
      && CashFramed(l, r.state, {taker})
      && HoldingsFramed(l, r.state, taker, s, stockType)
      && r.state.inr[taker].locked == l.inr[taker].locked
      && r.state.inr[taker].balance == l.inr[taker].balance + TakerCashDelta(takerType, q, price)
      && CashOf(r.state, taker) == CashOf(l, taker) + TakerCashDelta(takerType, q, price)
      && HasHolding(r.state, taker, s, stockType)
      && HeldOf(r.state, taker, s, stockType) == HeldOf(l, taker, s, stockType) + TakerContractDelta(takerType, q)
      && HoldingOf(r.state, taker, s, stockType).locked == (if HasHolding(l, taker, s, stockType) then HoldingOf(l, taker, s, stockType).locked else 0)
  {
    if takerType == TakerBuy then
      var c := AdjustCash(l, taker, -Cost(q, price), 0);
      if c.Thrown? then c
      else CreditHolding(c.state, taker, s, stockType, q)
    else
      var c := AdjustCash(l, taker, Cost(q, price), 0);
      if c.Thrown? then c
      else AdjustHolding(c.state, taker, s, stockType, -q, 0)
  }

  /** Both halves of one fill, maker first; a missing taker record raises after
      the maker's records were already updated. */
  function UpdateBalances(l: Ledger, s: Symbol, stockType: Outcome, price: int, q: int,
                          taker: UserId, takerType: TakerType, maker: UserId, makerType: OrderType): (r: Step<Ledger>)
    ensures maker != taker ==>
      (r.Normal? <==> MakerReady(l, maker, s, stockType, makerType) && TakerReady(l, taker, s, stockType, takerType))
    ensures r.Normal? ==> CashFramed(l, r.state, {maker, taker})
    ensures r.Normal? ==>
      forall u :: CashOf(r.state, u) == CashOf(l, u)
                  + (if u == maker then MakerCashDelta(makerType, q, price) else 0)
                  + (if u == taker then TakerCashDelta(takerType, q, price) else 0)
  {
    var m := SettleMaker(l, s, stockType, price, q, takerType, maker, makerType);
    if m.Thrown? then m
    else
      var r := SettleTaker(m.state, s, stockType, price, q, taker, takerType);
      assert r.Normal? ==> forall u :: u != taker ==> CashOf(r.state, u) == CashOf(m.state, u);
      assert forall u :: u != maker ==> CashOf(m.state, u) == CashOf(l, u);
      assert maker != taker ==>
        (TakerReady(m.state, taker, s, stockType, takerType) <==> TakerReady(l, taker, s, stockType, takerType));
      r
  }

  /** One fill changes no record of anybody but its maker and its taker. */
  lemma UpdateBalancesLeavesOthers(l: Ledger, s: Symbol, stockType: Outcome, price: int, q: int,
                                   taker: UserId, takerType: TakerType, maker: UserId, makerType: OrderType, u: UserId)
    requires u != maker && u != taker
    ensures var r := UpdateBalances(l, s, stockType, price, q, taker, takerType, maker, makerType);
      r.Normal? ==> Untouched(l, r.state, u)
  {
    var m := SettleMaker(l, s, stockType, price, q, takerType, maker, makerType);
    if m.Normal? {
      assert Untouched(l, m.state, u);
    }
  }

  /** One fill against somebody else's order moves exactly `q` contracts of
      `stockType` to (buying) or from (selling) the taker. */
  lemma UpdateBalancesDeliversToTaker(l: Ledger, s: Symbol, stockType: Outcome, price: int, q: int,
                                      taker: UserId, takerType: TakerType, maker: UserId, makerType: OrderType)
    requires maker != taker
    ensures var r := UpdateBalances(l, s, stockType, price, q, taker, takerType, maker, makerType);
      r.Normal? ==> HeldOf(r.state, taker, s, stockType) == HeldOf(l, taker, s, stockType) + TakerContractDelta(takerType, q)
  {
    var m := SettleMaker(l, s, stockType, price, q, takerType, maker, makerType);
    if m.Normal? {
      assert HeldOf(m.state, taker, s, stockType) == HeldOf(l, taker, s, stockType);
    }
  }

  /** A taker buy filled against a resting exit moves currency from taker to
      maker and contracts from maker to taker: no currency and no contract is
      created or destroyed, and nobody else's records change. */
  lemma ExitFillConserves(l: Ledger, s: Symbol, stockType: Outcome, price: int, q: int,
                          taker: UserId, maker: UserId)
    requires UpdateBalances(l, s, stockType, price, q, taker, TakerBuy, maker, Exit).Normal?
    ensures var r := UpdateBalances(l, s, stockType, price, q, taker, TakerBuy, maker, Exit).state;
      && CashOf(r, maker) + CashOf(r, taker) == CashOf(l, maker) + CashOf(l, taker)
      && HeldOf(r, maker, s, stockType) + HeldOf(r, taker, s, stockType) == HeldOf(l, maker, s, stockType) + HeldOf(l, taker, s, stockType)
      && CashFramed(l, r, {maker, taker})
  {
    var m := SettleMaker(l, s, stockType, price, q, TakerBuy, maker, Exit);
    var r := SettleTaker(m.state, s, stockType, price, q, taker, TakerBuy);
    assert HeldOf(m.state, maker, s, stockType) == HeldOf(l, maker, s, stockType) - q;
    if maker != taker {
      assert HeldOf(m.state, taker, s, stockType) == HeldOf(l, taker, s, stockType);
      assert HeldOf(r.state, maker, s, stockType) == HeldOf(m.state, maker, s, stockType);
    }
  }

  /** A taker buy filled against a resting (pseudo) buy mints a pair: the taker
      gets `q` contracts of `stockType`, the maker `q` of the flipped outcome,
      and the two pay together exactly the collateral of `q` pairs, whatever
      the price. */
  lemma PairFillIsCollateralised(l: Ledger, s: Symbol, stockType: Outcome, price: int, q: int,
                                 taker: UserId, maker: UserId)
    requires maker != taker
    requires UpdateBalances(l, s, stockType, price, q, taker, TakerBuy, maker, Buy).Normal?
    ensures var r := UpdateBalances(l, s, stockType, price, q, taker, TakerBuy, maker, Buy).state;
      && CashOf(r, maker) + CashOf(r, taker) == CashOf(l, maker) + CashOf(l, taker) - q * PriceSum * PaisePerRupee
      && HeldOf(r, taker, s, stockType) == HeldOf(l, taker, s, stockType) + q
      && HeldOf(r, maker, s, Flip(stockType)) == HeldOf(l, maker, s, Flip(stockType)) + q
  {
    CostOfPair(q, price);
    var m := SettleMaker(l, s, stockType, price, q, TakerBuy, maker, Buy);
    var r := SettleTaker(m.state, s, stockType, price, q, taker, TakerBuy);
    assert HeldOf(m.state, taker, s, stockType) == HeldOf(l, taker, s, stockType);
    assert HeldOf(r.state, maker, s, Flip(stockType)) == HeldOf(m.state, maker, s, Flip(stockType));
  }

  /** A selling taker's fill does not conserve the pair's currency. Against a
      resting buy, the maker's lock is released at the complementary price
      while the seller is paid at the level price, so the pair gains the
      difference, which vanishes only at the middle price 5. Against a resting
      exit both sides are paid the level price. */
  lemma SellerFillNet(l: Ledger, s: Symbol, stockType: Outcome, price: int, q: int,
                      taker: UserId, maker: UserId, makerType: OrderType)
    requires maker != taker
    ensures var r := UpdateBalances(l, s, stockType, price, q, taker, TakerSell, maker, makerType);
      var net := CashOf(r.state, maker) + CashOf(r.state, taker) - (CashOf(l, maker) + CashOf(l, taker));
      r.Normal? ==>
        && (makerType == Buy ==> net == q * (2 * price - PriceSum) * PaisePerRupee)
        && (makerType == Buy ==> (net == 0 <==> q == 0 || 2 * price == PriceSum))
        && (makerType == Exit ==> net == 2 * q * price * PaisePerRupee)
        && (makerType == Exit ==> (net == 0 <==> q == 0 || price == 0))
  {
    SellerNetAgainstBuy(q, price);
    SellerNetAgainstExit(q, price);
  }

  /** The pair's net for one seller fill against a resting buy: the seller is
      paid at `price` while the maker's lock is released at `10 - price`. */
  lemma SellerNetAgainstBuy(q: int, price: int)
    ensures var net := MakerCashDelta(Buy, q, price) + TakerCashDelta(TakerSell, q, price);
      net == q * (2 * price - PriceSum) * PaisePerRupee && (net == 0 <==> q == 0 || 2 * price == PriceSum)
  {
    var d := 2 * price - PriceSum;
    assert q * price - q * (PriceSum - price) == q * d;
    NoneIsZero(q, d);
  }

  /** The pair's net for one seller fill against a resting exit: both sides are
      paid at `price`. */
  lemma SellerNetAgainstExit(q: int, price: int)
    ensures var net := MakerCashDelta(Exit, q, price) + TakerCashDelta(TakerSell, q, price);
      net == 2 * q * price * PaisePerRupee && (net == 0 <==> q == 0 || price == 0)
  {
    NoneIsZero(q, price);
  }

  /** A product of paise is zero exactly when a factor is. */
  lemma NoneIsZero(a: int, b: int)
    ensures a * b * PaisePerRupee == 0 <==> a == 0 || b == 0
  {
    if a != 0 && b != 0 {
      assert a * b != 0;
    }
  }

  /** A seller's matched side also holds exits of the other outcome, and their
      makers are settled against their record of the seller's outcome: a maker
      holding none of it is paid first and then the fill raises. */
  lemma SellerAgainstExitWithoutRecord(l: Ledger, s: Symbol, stockType: Outcome, price: int, q: int,
                                       taker: UserId, maker: UserId)
    requires maker in l.inr && !HasHolding(l, maker, s, stockType)
    ensures var r := UpdateBalances(l, s, stockType, price, q, taker, TakerSell, maker, Exit);
      && r == Thrown(NoHolding(maker, s, stockType), r.state)
      && r.state.stock == l.stock
      && CashOf(r.state, maker) == CashOf(l, maker) + Cost(q, price)
  {
    var c := AdjustCash(l, maker, Cost(q, price), 0);
    assert SettleMaker(l, s, stockType, price, q, TakerSell, maker, Exit) == AdjustHolding(c.state, maker, s, stockType, 0, -q);
  }

  /** The owners of the resting orders a run of fills touches. */
  function Makers(fills: seq<Fill>): set<UserId>
  {
    if |fills| == 0 then {} else {fills[0].maker} + Makers(fills[1..])
  }

  /** Settles the fills of one match in order; the first raise stops the run
      with the records as they stood at that point. */
  function SettleAll(l: Ledger, fills: seq<Fill>, s: Symbol, stockType: Outcome, price: int,
                     taker: UserId, takerType: TakerType): (r: Step<Ledger>)
    decreases |fills|
  {
    if |fills| == 0 then Normal(l)
    else
      var f := fills[0];
      var step := UpdateBalances(l, s, stockType, price, f.quantity, taker, takerType, f.maker, f.makerType);
      if step.Thrown? then step
      else SettleAll(step.state, fills[1..], s, stockType, price, taker, takerType)
  }

  /** What a taker pays (negative) or receives over a run of fills, fill by fill. */
  function TakerFlow(takerType: TakerType, fills: seq<Fill>, price: int): int
  {
    if |fills| == 0 then 0 else TakerCashDelta(takerType, fills[0].quantity, price) + TakerFlow(takerType, fills[1..], price)
  }

  /** Paying fill by fill comes to the price of the whole filled quantity. */
  lemma {:induction false} TakerFlowIsPriceOfFilled(takerType: TakerType, fills: seq<Fill>, price: int)
    ensures TakerFlow(takerType, fills, price) == TakerCashDelta(takerType, Filled(fills), price)
    decreases |fills|
  {
    if |fills| > 0 {
      TakerFlowIsPriceOfFilled(takerType, fills[1..], price);
      TakerCashDeltaAdditive(takerType, fills[0].quantity, Filled(fills[1..]), price);
    }
  }

  /** A taker who owns none of the matched resting orders pays (or, selling,
      receives) exactly the price of the filled quantity. */
  lemma {:induction false} SettleAllPaysTaker(l: Ledger, fills: seq<Fill>, s: Symbol, stockType: Outcome, price: int,
                                              taker: UserId, takerType: TakerType)
    requires taker !in Makers(fills)
    ensures var r := SettleAll(l, fills, s, stockType, price, taker, takerType);
      r.Normal? ==> CashOf(r.state, taker) == CashOf(l, taker) + TakerCashDelta(takerType, Filled(fills), price)
  {
    SettleAllFlow(l, fills, s, stockType, price, taker, takerType);
    TakerFlowIsPriceOfFilled(takerType, fills, price);
  }

  lemma {:induction false} SettleAllFlow(l: Ledger, fills: seq<Fill>, s: Symbol, stockType: Outcome, price: int,
                                         taker: UserId, takerType: TakerType)
    requires taker !in Makers(fills)
    ensures var r := SettleAll(l, fills, s, stockType, price, taker, takerType);
      r.Normal? ==> CashOf(r.state, taker) == CashOf(l, taker) + TakerFlow(takerType, fills, price)
    decreases |fills|
  {
    if |fills| > 0 {
      var f := fills[0];
      var step := UpdateBalances(l, s, stockType, price, f.quantity, taker, takerType, f.maker, f.makerType);
      if step.Normal? {
        assert taker != f.maker && taker !in Makers(fills[1..]);
        SettleAllFlow(step.state, fills[1..], s, stockType, price, taker, takerType);
      }
    }
  }

  /** Settling a run of fills changes no record of a user who is neither the
      taker nor the owner of a filled order. */
  lemma {:induction false} SettleAllLeavesOthers(l: Ledger, fills: seq<Fill>, s: Symbol, stockType: Outcome, price: int,
                                                 taker: UserId, takerType: TakerType, u: UserId)
    requires u != taker && u !in Makers(fills)
    ensures var r := SettleAll(l, fills, s, stockType, price, taker, takerType);
      r.Normal? ==> Untouched(l, r.state, u)
    decreases |fills|
  {
    if |fills| > 0 {
      var f := fills[0];
      var step := UpdateBalances(l, s, stockType, price, f.quantity, taker, takerType, f.maker, f.makerType);
      if step.Normal? {
        assert u != f.maker && u !in Makers(fills[1..]);
        UpdateBalancesLeavesOthers(l, s, stockType, price, f.quantity, taker, takerType, f.maker, f.makerType, u);
        SettleAllLeavesOthers(step.state, fills[1..], s, stockType, price, taker, takerType, u);
      }
    }
  }

  /** A taker who owns none of the filled orders receives (buying) or gives up
      (selling) exactly the filled quantity of `stockType`. */
  lemma {:induction false} SettleAllDeliversToTaker(l: Ledger, fills: seq<Fill>, s: Symbol, stockType: Outcome, price: int,
                                                    taker: UserId, takerType: TakerType)
    requires taker !in Makers(fills)
    ensures var r := SettleAll(l, fills, s, stockType, price, taker, takerType);
      r.Normal? ==> HeldOf(r.state, taker, s, stockType) == HeldOf(l, taker, s, stockType) + TakerContractDelta(takerType, Filled(fills))
    decreases |fills|
  {
    if |fills| > 0 {
      var f := fills[0];
      var step := UpdateBalances(l, s, stockType, price, f.quantity, taker, takerType, f.maker, f.makerType);
      if step.Normal? {
        assert taker != f.maker && taker !in Makers(fills[1..]);
        UpdateBalancesDeliversToTaker(l, s, stockType, price, f.quantity, taker, takerType, f.maker, f.makerType);
        SettleAllDeliversToTaker(step.state, fills[1..], s, stockType, price, taker, takerType);
      }
    }
  }
}
