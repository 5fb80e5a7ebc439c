/** The engine state (ledger, order book, order-id counter) and its two
    entry points: admitting a resting sell-shaped order, and matching an
    incoming order against one price level and settling every fill. */
module Engine {
  import opened Types
  import opened Ledger
  import opened Book
  import opened Matching
  import opened Settlement

  /** `nextId` stands in for the random UUIDs given to new orders. */
  datatype Engine = Engine(ledger: Ledger, book: Book, nextId: nat)

  /** Every level's aggregate matches its queue, and every order id in the
      book was drawn before `nextId`, so a newly drawn id is fresh. */
  ghost predicate Inv(e: Engine)
  {
    BookOk(e.book) && IdsBelow(e.book, e.nextId)
  }

  /** Where an admitted order rests: outcome side and price. */
  datatype Placement = Placement(outcome: Outcome, price: int)

  /** The pseudo-order transformation: a buy of `o` at `p` rests as a sell of
      the other outcome at the complementary price; an exit rests as itself. */
  function Transform(t: OrderType, o: Outcome, p: int): Placement
  {
    if t == Buy then Placement(Flip(o), PriceSum - p) else Placement(o, p)
  }

  /** A buy is stored at the complement of its outcome and price, which stays
      in range and leads back to the original buy when complemented again; an
      exit is stored where it was placed. */
  lemma TransformIsComplement(t: OrderType, o: Outcome, p: int)
    ensures t == Buy ==>
      && Transform(t, o, p).outcome != o
      && Transform(t, o, p).price + p == PriceSum
      && Transform(Buy, Transform(t, o, p).outcome, Transform(t, o, p).price) == Placement(o, p)
    ensures t == Exit ==> Transform(t, o, p) == Placement(o, p)
    ensures ValidPrice(p) ==> ValidPrice(Transform(t, o, p).price)
  {
    FlipInvolutive(o);
  }

  /** The records admission dereferences before it touches the book. */
  predicate CanReserve(l: Ledger, user: UserId, s: Symbol, o: Outcome, t: OrderType)
  {
    if t == Buy then user in l.inr else HasHolding(l, user, s, o)
  }

  /** Locks what a resting order needs: the price of a buy (at the price the
      buyer named) in currency, or the contracts of an exit. */
  function Reserve(l: Ledger, user: UserId, s: Symbol, o: Outcome, p: int, q: int, t: OrderType): (r: Step<Ledger>)
    ensures r.Normal? <==> CanReserve(l, user, s, o, t)
    ensures r.Thrown? ==> r.state == l
    // locking moves value between available and locked, it creates none
    ensures r.Normal? ==> forall u :: CashOf(r.state, u) == CashOf(l, u)
    ensures r.Normal? ==> forall u, s2, o2 :: HeldOf(r.state, u, s2, o2) == HeldOf(l, u, s2, o2)
    ensures r.Normal? && t == Buy ==>
      && r.state.stock == l.stock
      && CashFramed(l, r.state, {user})
      && r.state.inr[user].locked == l.inr[user].locked + Cost(q, p)
      && r.state.inr[user].balance == l.inr[user].balance - Cost(q, p)
    ensures r.Normal? && t == Exit ==>
      && r.state.inr == l.inr
      && HoldingsFramed(l, r.state, user, s, o)
      && HasHolding(r.state, user, s, o)
      && HoldingOf(r.state, user, s, o).locked == HoldingOf(l, user, s, o).locked + q
      && HoldingOf(r.state, user, s, o).quantity == HoldingOf(l, user, s, o).quantity - q
  {
    if t == Buy then AdjustCash(l, user, -Cost(q, p), Cost(q, p))
    else AdjustHolding(l, user, s, o, -q, q)
  }

  /** Admits an order as a resting sell-shaped entry: transform it, lock the
      user's currency or contracts, and append it to the queue of its level.
      A missing currency or contract record raises before anything changes; a
      symbol or outcome side missing from the book raises after the lock. */
  function InitiateSellOrder(e: Engine, s: Symbol, o: Outcome, p: int, q: int, user: UserId, t: OrderType): (r: Step<Engine>)
    ensures var pl := Transform(t, o, p);
      r.Normal? <==> CanReserve(e.ledger, user, s, o, t) && s in e.book && pl.outcome in e.book[s]
    ensures r.Thrown? && !CanReserve(e.ledger, user, s, o, t) ==> r.state == e
    // the lock survives a raise from the book
    ensures r.Thrown? && CanReserve(e.ledger, user, s, o, t) ==>
      && r.state.ledger == Reserve(e.ledger, user, s, o, p, q, t).state
      && r.state.book == e.book
      && r.state.nextId == e.nextId
    ensures r.Normal? ==>
      var pl := Transform(t, o, p);
      && r.state.ledger == Reserve(e.ledger, user, s, o, p, q, t).state
      && r.state.nextId == e.nextId + 1
      && HasLevel(r.state.book, s, pl.outcome, pl.price)
      && LevelAt(r.state.book, s, pl.outcome, pl.price).orders
           == QueueAt(e.book, s, pl.outcome, pl.price) + [Order(e.nextId, user, q, t)]
      && LevelAt(r.state.book, s, pl.outcome, pl.price).total
           == TotalAt(e.book, s, pl.outcome, pl.price) + q
      && LevelsFramed(e.book, r.state.book, s, pl.outcome, pl.price)
  {
    var pl := Transform(t, o, p);
    var locked := Reserve(e.ledger, user, s, o, p, q, t);
    if locked.Thrown? then Thrown(locked.fault, e)
    else
      var inserted := Insert(e.book, s, pl.outcome, pl.price, Order(e.nextId, user, q, t));
      if inserted.Thrown? then Thrown(inserted.fault, e.(ledger := locked.state))
      else Normal(Engine(locked.state, inserted.state, e.nextId + 1))
  }

  /** Admission keeps every level's aggregate equal to its queue and draws a
      fresh id, whether it completes or raises. */
  lemma AdmissionKeepsInv(e: Engine, s: Symbol, o: Outcome, p: int, q: int, user: UserId, t: OrderType)
    requires Inv(e)
    ensures Inv(InitiateSellOrder(e, s, o, p, q, user, t).state)
  {
    var pl := Transform(t, o, p);
    InsertKeepsBookOk(e.book, s, pl.outcome, pl.price, Order(e.nextId, user, q, t));
    InsertKeepsIdsBelow(e.book, e.nextId, s, pl.outcome, pl.price, Order(e.nextId, user, q, t));
  }

  /** Whichever incoming order meets a resting buy of `o` (a buyer of the
      other outcome, or a seller of `o`), the maker is credited `o`, the
      outcome it bought. */
  lemma MatchedBuyGetsItsOutcome(o: Outcome, p: int, takerType: TakerType, stockType: Outcome)
    ensures MatchedSide(takerType, stockType) == Transform(Buy, o, p).outcome ==> MakerOutcome(takerType, stockType) == o
  {
    FlipInvolutive(o);
    FlipInvolutive(stockType);
  }

  /** A buy's lock at price p is exactly what the fills of its resting order
      release: the order rests at 10 - p, and a fill of x units at that level
      releases the price of x units at 10 - (10 - p) = p. The buyer receives
      the contracts of the outcome it bought. */
  lemma PseudoBuyLockIsReleasedByFill(l: Ledger, user: UserId, s: Symbol, o: Outcome, p: int, q: int,
                                      taker: UserId, takerType: TakerType, stockType: Outcome)
    requires user != taker
    requires Reserve(l, user, s, o, p, q, Buy).Normal?
    requires MatchedSide(takerType, stockType) == Transform(Buy, o, p).outcome
    ensures var locked := Reserve(l, user, s, o, p, q, Buy).state;
      var filled := UpdateBalances(locked, s, stockType, Transform(Buy, o, p).price, q, taker, takerType, user, Buy);
      filled.Normal? ==>
        && filled.state.inr[user].locked == l.inr[user].locked
        && HeldOf(filled.state, user, s, o) == HeldOf(l, user, s, o) + q
  {
    var locked := Reserve(l, user, s, o, p, q, Buy).state;
    var pl := Transform(Buy, o, p);
    MatchedBuyGetsItsOutcome(o, p, takerType, stockType);
    assert HeldOf(locked, user, s, o) == HeldOf(l, user, s, o);
    assert locked.inr[user].locked == l.inr[user].locked + Cost(q, p);
    var m := SettleMaker(locked, s, stockType, pl.price, q, takerType, user, Buy);
    assert PriceSum - pl.price == p;
    if m.Normal? {
      assert m.state.inr[user].locked == l.inr[user].locked;
      assert HeldOf(m.state, user, s, o) == HeldOf(l, user, s, o) + q;
      var r := SettleTaker(m.state, s, stockType, pl.price, q, taker, takerType);
      if r.Normal? {
        assert r.state.inr[user] == m.state.inr[user];
        assert HeldOf(r.state, user, s, o) == HeldOf(m.state, user, s, o);
      }
    }
  }

  datatype Matched = Matched(remaining: int, engine: Engine)

  /** No order in the queue belongs to `u`. */
  predicate OwnsNoneOf(u: UserId, os: seq<Order>)
  {
    forall i :: 0 <= i < |os| ==> os[i].userId != u
  }

  /** Matches `required` units of an incoming order of `stockType` against the
      level at `price` on the side the taker's type selects, updating the level
      in place and settling every fill. A missing level raises before anything
      changes. */
  function MatchOrder(e: Engine, s: Symbol, stockType: Outcome, price: int, required: int,
                      taker: UserId, takerType: TakerType): (r: Step<Matched>)
    ensures var side := MatchedSide(takerType, stockType);
      !HasLevel(e.book, s, side, price) ==> r == Thrown(NoLevel(s, side, price), Matched(required, e))
    ensures r.state.engine.nextId == e.nextId
    ensures var side := MatchedSide(takerType, stockType);
      HasLevel(e.book, s, side, price) ==>
        var before := LevelAt(e.book, s, side, price);
        var after := r.state.engine.book;
        && HasLevel(after, s, side, price)
        && LevelsFramed(e.book, after, s, side, price)
        && LevelAt(after, s, side, price).total == before.total - (required - r.state.remaining)
        && Sum(LevelAt(after, s, side, price).orders) == Sum(before.orders) - (required - r.state.remaining)
  {
    var side := MatchedSide(takerType, stockType);
    if !HasLevel(e.book, s, side, price) then Thrown(NoLevel(s, side, price), Matched(required, e))
    else
      var m := Match(LevelAt(e.book, s, side, price), required);
      var settled := SettleAll(e.ledger, m.fills, s, stockType, price, taker, takerType);
      var e' := Engine(settled.state, ReplaceLevel(e.book, s, side, price, m.level), e.nextId);
      if settled.Thrown? then Thrown(settled.fault, Matched(m.remaining, e')) else Normal(Matched(m.remaining, e'))
  }

  /** The remainder the engine-level match returns lies in [0, required] and
      is zero exactly when the level held at least the required quantity. */
  lemma MatchOrderRemainder(e: Engine, s: Symbol, stockType: Outcome, price: int, required: int,
                            taker: UserId, takerType: TakerType)
    requires HasLevel(e.book, s, MatchedSide(takerType, stockType), price)
    requires required >= 0 && NonNegative(LevelAt(e.book, s, MatchedSide(takerType, stockType), price).orders)
    ensures var r := MatchOrder(e, s, stockType, price, required, taker, takerType);
      && 0 <= r.state.remaining <= required
      && (r.state.remaining == 0 <==> Sum(LevelAt(e.book, s, MatchedSide(takerType, stockType), price).orders) >= required)
  {
    MatchRemainderIsShortfall(LevelAt(e.book, s, MatchedSide(takerType, stockType), price), required);
  }

  /** A taker who owns no order in the matched queue pays for (or, selling, is
      paid for) exactly the quantity the match filled, at the level's price. */
  lemma MatchOrderPaysTaker(e: Engine, s: Symbol, stockType: Outcome, price: int, required: int,
                            taker: UserId, takerType: TakerType)
    requires HasLevel(e.book, s, MatchedSide(takerType, stockType), price)
    requires OwnsNoneOf(taker, LevelAt(e.book, s, MatchedSide(takerType, stockType), price).orders)
    ensures var r := MatchOrder(e, s, stockType, price, required, taker, takerType);
      r.Normal? ==>
        CashOf(r.state.engine.ledger, taker) == CashOf(e.ledger, taker) + TakerCashDelta(takerType, required - r.state.remaining, price)
  {
    SettledStepPaysTaker(MatchOrder(e, s, stockType, price, required, taker, takerType), e.ledger,
                         LevelAt(e.book, s, MatchedSide(takerType, stockType), price), required, s, stockType, price, taker, takerType);
  }

  /** The payment carried over to any step whose remainder and ledger are those
      of matching `lvl` and settling its fills; stated on the step alone so
      that the price arithmetic is done without the engine's definitions. */
  lemma SettledStepPaysTaker(r: Step<Matched>, l: Ledger, lvl: Level, required: int, s: Symbol, stockType: Outcome,
                             price: int, taker: UserId, takerType: TakerType)
    requires OwnsNoneOf(taker, lvl.orders)
    requires r.state.remaining == Match(lvl, required).remaining
    requires r.state.engine.ledger == SettleAll(l, Match(lvl, required).fills, s, stockType, price, taker, takerType).state
    requires r.Normal? == SettleAll(l, Match(lvl, required).fills, s, stockType, price, taker, takerType).Normal?
    ensures r.Normal? ==>
      CashOf(r.state.engine.ledger, taker) == CashOf(l, taker) + TakerCashDelta(takerType, required - r.state.remaining, price)
  {
    var m := Match(lvl, required);
    MatchPaysTaker(l, lvl, required, s, stockType, price, taker, takerType);
    if r.Normal? {
      DeltaOfEqualQuantities(CashOf(r.state.engine.ledger, taker), CashOf(l, taker),
                             required - m.remaining, required - r.state.remaining, takerType, price);
    }
  }

  /** Rewrites a taker's currency change under an equal quantity; stated on
      plain integers so that the solver does the step without the price
      product in view. */
  lemma DeltaOfEqualQuantities(after: int, before: int, a: int, b: int, takerType: TakerType, price: int)
    requires a == b
    requires after == before + TakerCashDelta(takerType, a, price)
    ensures after == before + TakerCashDelta(takerType, b, price)
  {
  }

  /** A taker who owns no order in the matched queue receives (buying) or gives
      up (selling) exactly the filled quantity of `stockType`. */
  lemma MatchOrderDeliversToTaker(e: Engine, s: Symbol, stockType: Outcome, price: int, required: int,
                                  taker: UserId, takerType: TakerType)
    requires HasLevel(e.book, s, MatchedSide(takerType, stockType), price)
    requires OwnsNoneOf(taker, LevelAt(e.book, s, MatchedSide(takerType, stockType), price).orders)
    ensures var r := MatchOrder(e, s, stockType, price, required, taker, takerType);
      r.Normal? ==>
        HeldOf(r.state.engine.ledger, taker, s, stockType)
          == HeldOf(e.ledger, taker, s, stockType) + TakerContractDelta(takerType, required - r.state.remaining)
  {
    var lvl := LevelAt(e.book, s, MatchedSide(takerType, stockType), price);
    var m := Match(lvl, required);
    MakersOfMatch(lvl, required, taker);
    SettleAllDeliversToTaker(e.ledger, m.fills, s, stockType, price, taker, takerType);
  }

  /** A match changes no record of a user who is neither the taker nor the
      owner of an order in the matched queue. */
  lemma MatchOrderLeavesOthers(e: Engine, s: Symbol, stockType: Outcome, price: int, required: int,
                               taker: UserId, takerType: TakerType)
    requires HasLevel(e.book, s, MatchedSide(takerType, stockType), price)
    ensures var r := MatchOrder(e, s, stockType, price, required, taker, takerType);
      r.Normal? ==>
        forall u :: u != taker && OwnsNoneOf(u, LevelAt(e.book, s, MatchedSide(takerType, stockType), price).orders) ==>
          Untouched(e.ledger, r.state.engine.ledger, u)
  {
    var lvl := LevelAt(e.book, s, MatchedSide(takerType, stockType), price);
    var m := Match(lvl, required);
    forall u | u != taker && OwnsNoneOf(u, lvl.orders)
      ensures SettleAll(e.ledger, m.fills, s, stockType, price, taker, takerType).Normal? ==>
        Untouched(e.ledger, SettleAll(e.ledger, m.fills, s, stockType, price, taker, takerType).state, u)
    {
      MakersOfMatch(lvl, required, u);
      SettleAllLeavesOthers(e.ledger, m.fills, s, stockType, price, taker, takerType, u);
    }
  }

  /** The fills of a match name only owners of orders in the queue. */
  lemma {:induction false} MakersOfMatch(lvl: Level, required: int, u: UserId)
    requires OwnsNoneOf(u, lvl.orders)
    ensures u !in Makers(Match(lvl, required).fills)
    decreases |lvl.orders|
  {
    if |lvl.orders| > 0 {
      var head := lvl.orders[0];
      if head.quantity <= required {
        var tail := Level(lvl.total - head.quantity, lvl.orders[1..]);
        MakersOfMatch(tail, required - head.quantity, u);
        var rest := Match(tail, required - head.quantity);
        assert Match(lvl, required).fills == [FillOf(head, head.quantity)] + rest.fills;
        assert ([FillOf(head, head.quantity)] + rest.fills)[1..] == rest.fills;
      }
    }
  }

  /** A taker who owns no order in the queue pays for (or is paid for) exactly
      the quantity the match filled, at the level's price. */
  lemma MatchPaysTaker(l: Ledger, lvl: Level, required: int, s: Symbol, stockType: Outcome, price: int,
                       taker: UserId, takerType: TakerType)
    requires OwnsNoneOf(taker, lvl.orders)
    ensures var m := Match(lvl, required);
      var settled := SettleAll(l, m.fills, s, stockType, price, taker, takerType);
      settled.Normal? ==>
        CashOf(settled.state, taker) == CashOf(l, taker) + TakerCashDelta(takerType, required - m.remaining, price)
  {
    var m := Match(lvl, required);
    MakersOfMatch(lvl, required, taker);
    SettleAllPaysTaker(l, m.fills, s, stockType, price, taker, takerType);
    var settled := SettleAll(l, m.fills, s, stockType, price, taker, takerType);
    if settled.Normal? {
      DeltaOfEqualQuantities(CashOf(settled.state, taker), CashOf(l, taker), Filled(m.fills), required - m.remaining, takerType, price);
    }
  }

  /** Matching keeps every level's aggregate equal to its queue and keeps all
      ids below the counter, whether it completes or raises. */
  lemma MatchOrderKeepsInv(e: Engine, s: Symbol, stockType: Outcome, price: int, required: int,
                           taker: UserId, takerType: TakerType)
    requires Inv(e)
    ensures Inv(MatchOrder(e, s, stockType, price, required, taker, takerType).state.engine)
  {
    var side := MatchedSide(takerType, stockType);
    if HasLevel(e.book, s, side, price) {
      var before := LevelAt(e.book, s, side, price);
      var m := Match(before, required);
      assert QueueIdsBelow(before.orders, e.nextId);
      MatchKeepsIds(before, required, e.nextId);
      ReplaceLevelKeepsInvariants(e.book, s, side, price, m.level, e.nextId);
    }
  }
}
