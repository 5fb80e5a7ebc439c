/** The order book: per symbol, per outcome, a map from price to a price level
    holding an aggregate quantity and a FIFO queue of resting sell-shaped
    orders. */
module Book {
  import opened Types

  /** Order ids are drawn from a counter in place of random UUIDs. */
  type OrderId = nat

  datatype Order = Order(id: OrderId, userId: UserId, quantity: int, orderType: OrderType)

  /** `total` is the aggregate the engine keeps; `orders[0]` is the oldest order. */
  datatype Level = Level(total: int, orders: seq<Order>)

  type Book = map<Symbol, map<Outcome, map<int, Level>>>

  /** The quantity resting in a queue. */
  function Sum(os: seq<Order>): int
  {
    if |os| == 0 then 0 else os[0].quantity + Sum(os[1..])
  }

  lemma {:induction false} SumAppend(os: seq<Order>, x: Order)
    ensures Sum(os + [x]) == Sum(os) + x.quantity
  {
    if |os| == 0 {
      assert os + [x] == [x];
      assert Sum([x]) == x.quantity + Sum([]);
    } else {
      assert (os + [x])[0] == os[0];
      assert (os + [x])[1..] == os[1..] + [x];
      SumAppend(os[1..], x);
    }
  }

  /** The aggregate of a level is the sum of its orders' quantities. */
  predicate LevelOk(l: Level)
  {
    l.total == Sum(l.orders)
  }

  predicate HasLevel(b: Book, s: Symbol, o: Outcome, p: int)
  {
    s in b && o in b[s] && p in b[s][o]
  }

  function LevelAt(b: Book, s: Symbol, o: Outcome, p: int): Level
    requires HasLevel(b, s, o, p)
  {
    b[s][o][p]
  }

  /** The queue at a position, empty where no level exists yet. */
  function QueueAt(b: Book, s: Symbol, o: Outcome, p: int): seq<Order>
  {
    if HasLevel(b, s, o, p) then LevelAt(b, s, o, p).orders else []
  }

  /** The aggregate at a position, zero where no level exists yet. */
  function TotalAt(b: Book, s: Symbol, o: Outcome, p: int): int
  {
    if HasLevel(b, s, o, p) then LevelAt(b, s, o, p).total else 0
  }

  /** Every level's aggregate equals the quantity resting in its queue. */
  ghost predicate BookOk(b: Book)
  {
    forall s, o, p :: HasLevel(b, s, o, p) ==> LevelOk(LevelAt(b, s, o, p))
  }

  /** Every order id in the book is below `n`. */
  ghost predicate IdsBelow(b: Book, n: nat)
  {
    forall s, o, p, i :: HasLevel(b, s, o, p) && 0 <= i < |LevelAt(b, s, o, p).orders| ==>
      LevelAt(b, s, o, p).orders[i].id < n
  }

  /** `r` has the levels of `b` at every position other than (s, o, p), and
      the same symbols and outcome sides. */
  ghost predicate LevelsFramed(b: Book, r: Book, s: Symbol, o: Outcome, p: int)
  {
    && r.Keys == b.Keys
    && (forall s2 :: s2 in b ==> r[s2].Keys == b[s2].Keys)
    && (forall s2, o2, p2 :: (s2 != s || o2 != o || p2 != p) ==>
          (HasLevel(r, s2, o2, p2) <==> HasLevel(b, s2, o2, p2)))
    && (forall s2, o2, p2 :: (s2 != s || o2 != o || p2 != p) && HasLevel(b, s2, o2, p2) ==>
          LevelAt(r, s2, o2, p2) == LevelAt(b, s2, o2, p2))
  }

  /** Rests `order` at the back of the queue at (s, o, p), creating the level
      when the price has none. The symbol and its outcome side must already be
      in the book, otherwise the engine raises. */
  function Insert(b: Book, s: Symbol, o: Outcome, p: int, order: Order): (r: Step<Book>)
    ensures r.Normal? <==> s in b && o in b[s]
    ensures r.Thrown? ==> r.state == b && r.fault == (if s in b then NoBookSide(s, o) else NoBookSymbol(s))
    ensures r.Normal? ==>
      && HasLevel(r.state, s, o, p)
      && LevelAt(r.state, s, o, p).orders == QueueAt(b, s, o, p) + [order]
      && LevelAt(r.state, s, o, p).total == TotalAt(b, s, o, p) + order.quantity
      && LevelsFramed(b, r.state, s, o, p)
  {
    if s !in b then Thrown(NoBookSymbol(s), b)
    else if o !in b[s] then Thrown(NoBookSide(s, o), b)
    else
      var side := b[s][o];
      var level := if p in side then Level(side[p].total + order.quantity, side[p].orders + [order])
                   else Level(order.quantity, [order]);
      Normal(b[s := b[s][o := side[p := level]]])
  }

  /** Resting an order keeps every level's aggregate equal to its queue's sum. */
  lemma InsertKeepsBookOk(b: Book, s: Symbol, o: Outcome, p: int, order: Order)
    requires BookOk(b)
    ensures Insert(b, s, o, p, order).Normal? ==> BookOk(Insert(b, s, o, p, order).state)
  {
    var r := Insert(b, s, o, p, order);
    if r.Normal? {
      SumAppend(QueueAt(b, s, o, p), order);
      assert LevelOk(LevelAt(r.state, s, o, p));
      forall s2, o2, p2 | HasLevel(r.state, s2, o2, p2)
        ensures LevelOk(LevelAt(r.state, s2, o2, p2))
      {
        if s2 != s || o2 != o || p2 != p {
          assert LevelAt(r.state, s2, o2, p2) == LevelAt(b, s2, o2, p2);
        }
      }
    }
  }

  /** An order whose id is not below `n` is new to a book whose ids all are. */
  lemma InsertKeepsIdsBelow(b: Book, n: nat, s: Symbol, o: Outcome, p: int, order: Order)
    requires IdsBelow(b, n)
    requires order.id == n
    ensures forall s2, o2, p2, i :: HasLevel(b, s2, o2, p2) && 0 <= i < |LevelAt(b, s2, o2, p2).orders| ==>
      LevelAt(b, s2, o2, p2).orders[i].id != order.id
    ensures Insert(b, s, o, p, order).Normal? ==> IdsBelow(Insert(b, s, o, p, order).state, n + 1)
  {
    var r := Insert(b, s, o, p, order);
    if r.Normal? {
      forall s2, o2, p2, i | HasLevel(r.state, s2, o2, p2) && 0 <= i < |LevelAt(r.state, s2, o2, p2).orders|
        ensures LevelAt(r.state, s2, o2, p2).orders[i].id < n + 1
      {
        if s2 != s || o2 != o || p2 != p {
          assert LevelAt(r.state, s2, o2, p2) == LevelAt(b, s2, o2, p2);
        } else if i < |QueueAt(b, s, o, p)| {
          assert LevelAt(r.state, s2, o2, p2).orders[i] == LevelAt(b, s, o, p).orders[i];
        }
      }
    }
  }

  /** Every order id in a queue is below `n`. */
  predicate QueueIdsBelow(os: seq<Order>, n: nat)
  {
    forall i :: 0 <= i < |os| ==> os[i].id < n
  }

  /** Writes a level back at an existing position, leaving every other level. */
  function ReplaceLevel(b: Book, s: Symbol, o: Outcome, p: int, lvl: Level): (r: Book)
    requires HasLevel(b, s, o, p)
    ensures HasLevel(r, s, o, p) && LevelAt(r, s, o, p) == lvl
    ensures LevelsFramed(b, r, s, o, p)
  {
    b[s := b[s][o := b[s][o][p := lvl]]]
  }

  /** Writing back a consistent level whose ids are below `n` keeps the book
      consistent and its ids below `n`. */
  lemma ReplaceLevelKeepsInvariants(b: Book, s: Symbol, o: Outcome, p: int, lvl: Level, n: nat)
    requires HasLevel(b, s, o, p)
    requires BookOk(b) && LevelOk(lvl)
    requires IdsBelow(b, n) && QueueIdsBelow(lvl.orders, n)
    ensures BookOk(ReplaceLevel(b, s, o, p, lvl))
    ensures IdsBelow(ReplaceLevel(b, s, o, p, lvl), n)
  {
    var r := ReplaceLevel(b, s, o, p, lvl);
    forall s2, o2, p2 | HasLevel(r, s2, o2, p2)
      ensures LevelOk(LevelAt(r, s2, o2, p2))
    {
      if s2 != s || o2 != o || p2 != p {
        assert LevelAt(r, s2, o2, p2) == LevelAt(b, s2, o2, p2);
      }
    }
    forall s2, o2, p2, i | HasLevel(r, s2, o2, p2) && 0 <= i < |LevelAt(r, s2, o2, p2).orders|
      ensures LevelAt(r, s2, o2, p2).orders[i].id < n
    {
      if s2 != s || o2 != o || p2 != p {
        assert LevelAt(r, s2, o2, p2) == LevelAt(b, s2, o2, p2);
      }
    }
  }
}
