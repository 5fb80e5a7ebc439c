/** Worked trades on a market "Eth": an exit resting and then bought into, and
    a buy of "no" resting as a pseudo sell of "yes". */
module Scenarios {
  import opened Types
  import opened Ledger
  import opened Book
  import opened Engine

  const EmptyBook: Book := map["Eth" := map[Yes := map[], No := map[]]]

  /** U1 owns 10 "yes" contracts and no currency; U2 has 10000 paise. */
  const Start: Engine := Engine(
    Ledger(map["U1" := Cash(0, 0), "U2" := Cash(10000, 0)],
           map["U1" := map["Eth" := map[Yes := Holding(10, 0)]], "U2" := map[]]),
    EmptyBook,
    0)

  /** The ledger U1 and U2 hold while U1's exit of 10 rests. */
  predicate ExitResting(l: Ledger)
  {
    && l.inr == map["U1" := Cash(0, 0), "U2" := Cash(10000, 0)]
    && HasHolding(l, "U1", "Eth", Yes) && HoldingOf(l, "U1", "Eth", Yes) == Holding(0, 10)
    && "U2" in l.stock && !HasHolding(l, "U2", "Eth", Yes)
  }

  /** The ledger after U2's buy of 4 from U1's exit has settled. */
  predicate FourBought(l: Ledger)
  {
    && l.inr.Keys == {"U1", "U2"}
    && l.inr["U1"] == Cash(2400, 0)
    && l.inr["U2"] == Cash(7600, 0)
    && HasHolding(l, "U1", "Eth", Yes) && HoldingOf(l, "U1", "Eth", Yes) == Holding(0, 6)
    && HasHolding(l, "U2", "Eth", Yes) && HoldingOf(l, "U2", "Eth", Yes) == Holding(4, 0)
  }

  /** Settling the fill: U1 is paid 2400 paise and delivers 4 locked
      contracts; U2 pays 2400 and receives 4. */
  lemma SettleFourFromExit(l: Ledger)
    requires ExitResting(l)
    ensures var step := Settlement.UpdateBalances(l, "Eth", Yes, 6, 4, "U2", TakerBuy, "U1", Exit);
      step.Normal? && FourBought(step.state)
  {
    var maker := Settlement.SettleMaker(l, "Eth", Yes, 6, 4, TakerBuy, "U1", Exit);
    assert maker.Normal?;
    assert HoldingOf(maker.state, "U1", "Eth", Yes) == Holding(0, 6);
  }

  /** U2 buys 4 "yes" at 6 from U1's resting exit of 10: the fill is settled as
      above and 6 stay resting at the head of the queue. */
  lemma BuyFromExit(e: Engine)
    requires HasLevel(e.book, "Eth", Yes, 6)
    requires LevelAt(e.book, "Eth", Yes, 6) == Level(10, [Order(0, "U1", 10, Exit)])
    requires ExitResting(e.ledger)
    ensures var matched := MatchOrder(e, "Eth", Yes, 6, 4, "U2", TakerBuy);
      && matched.Normal?
      && matched.state.remaining == 0
      && LevelAt(matched.state.engine.book, "Eth", Yes, 6) == Level(6, [Order(0, "U1", 6, Exit)])
      && FourBought(matched.state.engine.ledger)
  {
    var m := Matching.Match(LevelAt(e.book, "Eth", Yes, 6), 4);
    assert m == Matching.MatchResult(0, Level(6, [Order(0, "U1", 6, Exit)]), [Matching.Fill("U1", Exit, 4)]);
    SettleFourFromExit(e.ledger);
    var step := Settlement.UpdateBalances(e.ledger, "Eth", Yes, 6, 4, "U2", TakerBuy, "U1", Exit);
    assert Settlement.SettleAll(e.ledger, m.fills, "Eth", Yes, 6, "U2", TakerBuy)
        == Settlement.SettleAll(step.state, [], "Eth", Yes, 6, "U2", TakerBuy);
  }

  /** U1 rests an exit of 10 "yes" at 6, locking the contracts. */
  lemma ExitRests()
    ensures var admitted := InitiateSellOrder(Start, "Eth", Yes, 6, 10, "U1", Exit);
      && admitted.Normal?
      && HasLevel(admitted.state.book, "Eth", Yes, 6)
      && LevelAt(admitted.state.book, "Eth", Yes, 6) == Level(10, [Order(0, "U1", 10, Exit)])
      && ExitResting(admitted.state.ledger)
  {
    assert HasHolding(Start.ledger, "U1", "Eth", Yes);
    assert QueueAt(Start.book, "Eth", Yes, 6) == [];
  }

  /** The two steps in sequence, from the start. */
  lemma ExitThenBuy()
    ensures var admitted := InitiateSellOrder(Start, "Eth", Yes, 6, 10, "U1", Exit);
      && admitted.Normal?
      && var matched := MatchOrder(admitted.state, "Eth", Yes, 6, 4, "U2", TakerBuy);
      && matched.Normal?
      && matched.state.remaining == 0
      && FourBought(matched.state.engine.ledger)
  {
    ExitRests();
    BuyFromExit(InitiateSellOrder(Start, "Eth", Yes, 6, 10, "U1", Exit).state);
  }

  /** A buy of 3 "no" at 3 rests as a pseudo sell of "yes" at 7 and locks
      3 x 3 x 100 paise of the buyer's currency. */
  lemma BuyRestsAsComplement()
    ensures var admitted := InitiateSellOrder(Start, "Eth", No, 3, 3, "U2", Buy);
      && admitted.Normal?
      && LevelAt(admitted.state.book, "Eth", Yes, 7) == Level(3, [Order(0, "U2", 3, Buy)])
      && !HasLevel(admitted.state.book, "Eth", No, 3)
      && admitted.state.ledger.inr["U2"] == Cash(9100, 900)
  {
  }

  /** A match that uses up the requirement exactly at an order boundary:
      the first order is removed whole, nothing remains, and the next order
      keeps its quantity. It still receives a fill of zero, because the loop
      only stops inside an order. */
  lemma ExactBoundary()
    ensures var a := Order(0, "U1", 3, Exit);
      var b := Order(1, "U3", 2, Exit);
      var m := Matching.Match(Level(5, [a, b]), 3);
      && m.remaining == 0
      && m.level == Level(2, [b])
      && m.fills == [Matching.FillOf(a, 3), Matching.FillOf(b, 0)]
  {
    var a := Order(0, "U1", 3, Exit);
    var b := Order(1, "U3", 2, Exit);
    assert [a, b][1..] == [b];
    assert [b][1..] == [];
    assert b.(quantity := 2 - 0) == b;
  }

  /** M owns one "no" contract, locked behind M's exit of 1 "no" resting at 6;
      S owns one "yes" contract. */
  const ExitOfNo: Engine := Engine(
    Ledger(map["M" := Cash(0, 0), "S" := Cash(0, 0)],
           map["M" := map["Eth" := map[No := Holding(0, 1)]], "S" := map["Eth" := map[Yes := Holding(1, 0)]]]),
    map["Eth" := map[Yes := map[], No := map[6 := Level(1, [Order(0, "M", 1, Exit)])]]],
    1)

  /** S sells 1 "yes" at 6 and is matched against M's exit of "no". The fill
      settles M against M's "yes" record, which M does not have, so the match
      raises after M has been paid 600 paise. */
  lemma SellerHitsExitOfOtherOutcome()
    ensures var r := MatchOrder(ExitOfNo, "Eth", Yes, 6, 1, "S", TakerSell);
      && r.Thrown?
      && r.fault == NoHolding("M", "Eth", Yes)
      && r.state.engine.ledger.inr["M"] == Cash(600, 0)
  {
    var exit := Order(0, "M", 1, Exit);
    assert Settlement.MatchedSide(TakerSell, Yes) == No;
    assert Matching.Match(Level(1, [exit]), 1).fills == [Matching.FillOf(exit, 1)];
    Settlement.SellerAgainstExitWithoutRecord(ExitOfNo.ledger, "Eth", Yes, 6, 1, "S", "M");
  }
}
