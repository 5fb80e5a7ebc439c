/** The book effects of the engine's matchOrder as its code is written, for a
    level object handed in that is the book's own level on the matched side
    (the caller that makes this choice is not part of this model). Only the
    book and the list of fills are modelled here; settling the fills is
    `Settlement.SettleAll`'s business and is left out of this module.

    - the loop walks the queue with `for (const order in allOrders)`, whose keys
      are fixed when the loop starts and skip every key that no longer exists
      when it is reached;
    - a partial fill decrements the handed-in total and then the book's total
      of the matched side, which is the same level, so the total drops twice;
    - a whole fill decrements the handed-in total and then the book's level on
      the taker's own outcome, and shifts that level's queue. For a buyer this
      is again the matched level: its total drops twice and its queue moves
      while the keys do not, so an order can be removed unfilled. For a seller
      it is the level on the other side: an unrelated order is removed and
      that level's total drops, or the access raises when no such level exists.

    `Matching.Match` and `Engine.MatchOrder` are the corrected behaviour the
    rest of the model uses. */
module AsWritten {
  import opened Types
  import opened Book
  import opened Matching
  import opened Settlement
  import Ledger
  import Engine

  /** What the written loop leaves: the remainder, the matched level (`own`),
      the level on the taker's outcome at the same price (`other`, written to
      only for a seller), the fills, and whether the loop raised. */
  datatype Written = Written(remaining: int, own: Level, other: Level, fills: seq<Fill>, raised: bool)

  /** The loop from key `i` on: `keys` is the number of keys fixed at the start,
      `queue` and `total` the matched level as it is now, `other` the level on
      the taker's outcome, present when `otherExists`. */
  function Loop(queue: seq<Order>, i: nat, keys: nat, remaining: int, total: int,
                other: Level, otherExists: bool, takerType: TakerType): (r: Written)
    decreases keys - i
    ensures !r.raised ==> Filled(r.fills) == remaining - r.remaining
    // every unit filled is taken off the books twice
    ensures !r.raised && takerType == TakerBuy ==> r.own.total == total - 2 * (remaining - r.remaining)
    ensures !r.raised && takerType == TakerSell ==>
      r.own.total + r.other.total == total + other.total - 2 * (remaining - r.remaining)
    ensures !r.raised && !otherExists ==> r.other == other
  {
    if i >= keys then Written(remaining, Level(total, queue), other, [], false)
    else if i >= |queue| then Loop(queue, i + 1, keys, remaining, total, other, otherExists, takerType)
    else
      var order := queue[i];
      if order.quantity > remaining then
        Written(0, Level(total - remaining - remaining, queue[i := order.(quantity := order.quantity - remaining)]),
                other, [FillOf(order, remaining)], false)
      else if takerType == TakerBuy then
        var zeroed := queue[i := order.(quantity := 0)];
        var rest := Loop(zeroed[1..], i + 1, keys, remaining - order.quantity, total - order.quantity - order.quantity,
                         other, otherExists, takerType);
        rest.(fills := [FillOf(order, order.quantity)] + rest.fills)
      else if !otherExists then
        // the remainder and the handed-in total are already decremented
        Written(remaining - order.quantity, Level(total - order.quantity, queue), other, [], true)
      else
        var shifted := if |other.orders| == 0 then [] else other.orders[1..];
        var rest := Loop(queue[i := order.(quantity := 0)], i + 1, keys, remaining - order.quantity, total - order.quantity,
                         Level(other.total - order.quantity, shifted), true, takerType);
        rest.(fills := [FillOf(order, order.quantity)] + rest.fills)
  }

  datatype WrittenMatch = WrittenMatch(remaining: int, book: Book, fills: seq<Fill>)

  /** matchOrder as written, on the book's own level at the matched side. */
  function MatchAsWritten(b: Book, s: Symbol, stockType: Outcome, price: int, required: int,
                          takerType: TakerType): (r: Step<WrittenMatch>)
    ensures r.Normal? ==> Filled(r.state.fills) == required - r.state.remaining
    ensures r.Normal? && takerType == TakerBuy ==>
      TotalAt(r.state.book, s, stockType, price) == TotalAt(b, s, stockType, price) - 2 * (required - r.state.remaining)
    ensures r.Normal? && takerType == TakerSell ==>
      TotalAt(r.state.book, s, Flip(stockType), price) + TotalAt(r.state.book, s, stockType, price)
        == TotalAt(b, s, Flip(stockType), price) + TotalAt(b, s, stockType, price) - 2 * (required - r.state.remaining)
  {
    var side := MatchedSide(takerType, stockType);
    if !HasLevel(b, s, side, price) then Thrown(NoLevel(s, side, price), WrittenMatch(required, b, []))
    else
      var lvl := LevelAt(b, s, side, price);
      var otherExists := HasLevel(b, s, stockType, price);
      var other := if otherExists then LevelAt(b, s, stockType, price) else Level(0, []);
      var w := Loop(lvl.orders, 0, |lvl.orders|, required, lvl.total, other, otherExists, takerType);
      var b1 := ReplaceLevel(b, s, side, price, w.own);
      var b2 := if takerType == TakerSell && otherExists then ReplaceLevel(b1, s, stockType, price, w.other) else b1;
      if w.raised then Thrown(NoLevel(s, stockType, price), WrittenMatch(w.remaining, b2, w.fills))
      else Normal(WrittenMatch(w.remaining, b2, w.fills))
  }

  /** A book of one symbol with the given levels at price 6. */
  function BookAt6(yes: map<int, Level>, no: map<int, Level>): Book
  {
    map["Eth" := map[Yes := yes, No := no]]
  }

  /** For a buying taker the written code loses the level invariant as soon as
      anything is filled: the total falls by twice the filled quantity while the
      queue loses it once. The corrected `Match` keeps the invariant. */
  lemma DoubleDecrementWitness()
    ensures var lvl := Level(5, [Order(0, "maker", 5, Exit)]);
      var written := MatchAsWritten(BookAt6(map[6 := lvl], map[]), "Eth", Yes, 6, 2, TakerBuy);
      && LevelOk(lvl)
      && written.Normal?
      && written.state.remaining == 0
      && LevelAt(written.state.book, "Eth", Yes, 6) == Level(1, [Order(0, "maker", 3, Exit)])
      && !LevelOk(LevelAt(written.state.book, "Eth", Yes, 6))
      && LevelOk(Match(lvl, 2).level)
  {
    var lvl := Level(5, [Order(0, "maker", 5, Exit)]);
    assert Sum([Order(0, "maker", 3, Exit)]) == 3 + Sum([]);
  }

  /** Three resting orders of 1, 2 and 3 units, and a buyer of all 6. The
      written loop fills the first order, shifts, reads key 1 (now the third
      order), fills it, shifts away the second order without filling it, and
      finds key 2 gone: 2 units stay unfilled although the queue held 6, the
      second maker's order disappears unsettled, and a zero-quantity order is
      left behind. The corrected `Match` fills all three in order. */
  lemma SkippedOrderWitness()
    ensures var a := Order(0, "a", 1, Exit);
      var b := Order(1, "b", 2, Exit);
      var c := Order(2, "c", 3, Exit);
      var lvl := Level(6, [a, b, c]);
      var written := MatchAsWritten(BookAt6(map[6 := lvl], map[]), "Eth", Yes, 6, 6, TakerBuy);
      var corrected := Match(lvl, 6);
      && written.Normal?
      && written.state.remaining == 2
      && written.state.fills == [FillOf(a, 1), FillOf(c, 3)]
      && LevelAt(written.state.book, "Eth", Yes, 6).orders == [c.(quantity := 0)]
      && corrected.remaining == 0
      && corrected.fills == [FillOf(a, 1), FillOf(b, 2), FillOf(c, 3)]
      && corrected.level.orders == []
  {
    var a := Order(0, "a", 1, Exit);
    var b := Order(1, "b", 2, Exit);
    var c := Order(2, "c", 3, Exit);
    var none := Level(0, []);
    // key 0: a is filled whole, zeroed and shifted out
    var q1 := [a, b, c][0 := a.(quantity := 0)][1..];
    assert q1 == [b, c];
    // key 1: now c, filled whole, zeroed; the shift removes b
    var q2 := q1[1 := c.(quantity := 0)][1..];
    assert q2 == [c.(quantity := 0)];
    // key 2: beyond the shortened queue, skipped; key 3 ends the loop
    var tail := Loop(q2, 2, 3, 2, 6 - 2 - 6, none, false, TakerBuy);
    assert tail == Loop(q2, 3, 3, 2, 6 - 2 - 6, none, false, TakerBuy);
    assert tail == Written(2, Level(-2, q2), none, [], false);
    var mid := Loop(q1, 1, 3, 5, 6 - 2, none, false, TakerBuy);
    assert mid.fills == [FillOf(c, 3)] + tail.fills;
    var w := Loop([a, b, c], 0, 3, 6, 6, none, false, TakerBuy);
    assert w.fills == [FillOf(a, 1)] + mid.fills;
    var m3 := Match(Level(0, []), 0);
    var m2 := Match(Level(3, [c]), 3);
    assert [c][1..] == [];
    assert m2.fills == [FillOf(c, 3)] + m3.fills;
    var m1 := Match(Level(5, [b, c]), 5);
    assert [b, c][1..] == [c];
    assert m1.fills == [FillOf(b, 2)] + m2.fills;
    assert [a, b, c][1..] == [b, c];
  }

  /** A book with a resting buy of 2 "yes" (a pseudo sell of "no" at 6) and,
      when `withExit`, somebody else's exit of 5 "yes" at 6. */
  function SellerBook(withExit: bool): Book
  {
    BookAt6(if withExit then map[6 := Level(5, [Order(1, "X", 5, Exit)])] else map[],
            map[6 := Level(2, [Order(0, "B", 2, Buy)])])
  }

  /** A seller of 2 "yes" at 6 meets the resting buy of 2 "yes", while the
      exit of 5 "yes" rests at 6. As written, the buy is filled but stays in
      its queue with quantity 0, and the exit is shifted out of the "yes"
      queue unfilled while that level's total drops to 3. */
  lemma SellerShiftWitness()
    ensures var written := MatchAsWritten(SellerBook(true), "Eth", Yes, 6, 2, TakerSell);
      && written.Normal?
      && written.state.fills == [FillOf(Order(0, "B", 2, Buy), 2)]
      && LevelAt(written.state.book, "Eth", No, 6) == Level(0, [Order(0, "B", 0, Buy)])
      && LevelAt(written.state.book, "Eth", Yes, 6) == Level(3, [])
      && !LevelOk(LevelAt(written.state.book, "Eth", Yes, 6))
  {
    var buy := Order(0, "B", 2, Buy);
    var exit := Order(1, "X", 5, Exit);
    assert [exit][1..] == [];
    var w := Loop([buy], 0, 1, 2, 2, Level(5, [exit]), true, TakerSell);
    assert w == Written(0, Level(0, [buy.(quantity := 0)]), Level(3, []), [FillOf(buy, 2)], false);
  }

  /** Without any "yes" level at 6, the same seller makes the written code
      raise on the "yes" book access, with the buy already counted as filled. */
  lemma SellerRaiseWitness()
    ensures var written := MatchAsWritten(SellerBook(false), "Eth", Yes, 6, 2, TakerSell);
      && written.Thrown?
      && written.fault == NoLevel("Eth", Yes, 6)
      && written.state.remaining == 0
  {
  }

  /** The corrected `MatchOrder` removes the filled buy and leaves the exit
      and its level alone. */
  lemma SellerCorrectedWitness(l: Ledger.Ledger)
    ensures var corrected := Engine.MatchOrder(Engine.Engine(l, SellerBook(true), 2), "Eth", Yes, 6, 2, "S", TakerSell);
      && LevelAt(corrected.state.engine.book, "Eth", No, 6) == Level(0, [])
      && LevelAt(corrected.state.engine.book, "Eth", Yes, 6) == Level(5, [Order(1, "X", 5, Exit)])
  {
    var book := SellerBook(true);
    var buy := Order(0, "B", 2, Buy);
    assert MatchedSide(TakerSell, Yes) == No;
    assert HasLevel(book, "Eth", No, 6) && LevelAt(book, "Eth", No, 6) == Level(2, [buy]);
    assert [buy][1..] == [];
    assert Match(Level(2, [buy]), 2).level == Match(Level(0, []), 0).level == Level(0, []);
  }
}
