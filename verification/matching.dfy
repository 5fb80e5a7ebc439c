/** Matching an incoming order against the FIFO queue of one price level,
    head first, one resting order at a time. */
module Matching {
  import opened Types
  import opened Book

  /** One fill: the resting order's owner and type and the quantity settled. */
  datatype Fill = Fill(maker: UserId, makerType: OrderType, quantity: int)

  datatype MatchResult = MatchResult(remaining: int, level: Level, fills: seq<Fill>)

  /** A fill of `q` units against a resting order. */
  function FillOf(o: Order, q: int): Fill
  {
    Fill(o.userId, o.orderType, q)
  }

  /** Total quantity settled by a sequence of fills. */
  function Filled(fs: seq<Fill>): int
  {
    if |fs| == 0 then 0 else fs[0].quantity + Filled(fs[1..])
  }

  /** Every resting quantity is at least zero. */
  predicate NonNegative(os: seq<Order>)
  {
    forall i :: 0 <= i < |os| ==> os[i].quantity >= 0
  }

  function Max(a: int, b: int): int
  {
    if a >= b then a else b
  }

  /** Matches `required` units against `lvl`. A head order larger than what is
      still required is reduced in place and the match ends; otherwise the head
      is consumed whole, removed, and matching goes on with the next order (even
      when nothing more is required, in which case the next order gets a fill of
      zero). Returns the unfilled remainder, the level left behind and the fills
      in the order they are settled. */
  function Match(lvl: Level, required: int): (r: MatchResult)
    decreases |lvl.orders|
    // quantity leaving the level is exactly the quantity filled
    ensures Filled(r.fills) == required - r.remaining
    ensures r.level.total == lvl.total - (required - r.remaining)
    ensures Sum(r.level.orders) == Sum(lvl.orders) - (required - r.remaining)
    ensures LevelOk(lvl) ==> LevelOk(r.level)
  {
    if |lvl.orders| == 0 then MatchResult(required, lvl, [])
    else
      var head := lvl.orders[0];
      if head.quantity > required then
        var head' := head.(quantity := head.quantity - required);
        MatchResult(0, Level(lvl.total - required, [head'] + lvl.orders[1..]), [FillOf(head, required)])
      else
        var rest := Match(Level(lvl.total - head.quantity, lvl.orders[1..]), required - head.quantity);
        MatchResult(rest.remaining, rest.level, [FillOf(head, head.quantity)] + rest.fills)
  }

  /** Matching is FIFO: when the queue is exhausted, every resting order was
      filled whole, oldest first. */
  lemma {:induction false} MatchExhaustsInOrder(lvl: Level, required: int)
    ensures var r := Match(lvl, required);
      |r.level.orders| == 0 ==>
        && |r.fills| == |lvl.orders|
        && forall i :: 0 <= i < |lvl.orders| ==> r.fills[i] == FillOf(lvl.orders[i], lvl.orders[i].quantity)
    decreases |lvl.orders|
  {
    if |lvl.orders| > 0 {
      var head := lvl.orders[0];
      if head.quantity <= required {
        var tail := Level(lvl.total - head.quantity, lvl.orders[1..]);
        MatchExhaustsInOrder(tail, required - head.quantity);
        var rest := Match(tail, required - head.quantity);
        var r := Match(lvl, required);
        assert r.fills == [FillOf(head, head.quantity)] + rest.fills;
        if |r.level.orders| == 0 {
          forall i | 0 <= i < |lvl.orders|
            ensures r.fills[i] == FillOf(lvl.orders[i], lvl.orders[i].quantity)
          {
            if i > 0 {
              assert r.fills[i] == rest.fills[i - 1];
              assert lvl.orders[i] == tail.orders[i - 1];
            }
          }
        }
      }
    }
  }

  /** Matching is FIFO: when some of the queue survives, the oldest k orders
      were filled whole and the next one partially; that order stays at the
      head with a positive quantity, nothing more is required, and the orders
      behind it are untouched. */
  lemma {:induction false} MatchStopsInside(lvl: Level, required: int)
    ensures var r := Match(lvl, required);
      |r.level.orders| > 0 ==>
        var k := |lvl.orders| - |r.level.orders|;
        && 0 <= k < |lvl.orders|
        && r.remaining == 0
        && |r.fills| == k + 1
        && (forall i :: 0 <= i < k ==> r.fills[i] == FillOf(lvl.orders[i], lvl.orders[i].quantity))
        && r.fills[k] == FillOf(lvl.orders[k], r.fills[k].quantity)
        && r.level.orders[0] == lvl.orders[k].(quantity := lvl.orders[k].quantity - r.fills[k].quantity)
        && r.level.orders[0].quantity > 0
        && r.level.orders[1..] == lvl.orders[k + 1..]
    decreases |lvl.orders|
  {
    if |lvl.orders| > 0 {
      var head := lvl.orders[0];
      if head.quantity <= required {
        var tail := Level(lvl.total - head.quantity, lvl.orders[1..]);
        MatchStopsInside(tail, required - head.quantity);
        var rest := Match(tail, required - head.quantity);
        var r := Match(lvl, required);
        assert r.fills == [FillOf(head, head.quantity)] + rest.fills;
        assert r.level == rest.level;
        if |r.level.orders| > 0 {
          var k := |tail.orders| - |rest.level.orders|;
          assert k + 1 == |lvl.orders| - |r.level.orders|;
          assert lvl.orders[k + 1] == tail.orders[k];
          assert r.fills[k + 1] == rest.fills[k];
          assert lvl.orders[k + 1 + 1..] == tail.orders[k + 1..];
          forall i | 0 <= i < k + 1
            ensures r.fills[i] == FillOf(lvl.orders[i], lvl.orders[i].quantity)
          {
            if i > 0 {
              assert r.fills[i] == rest.fills[i - 1];
              assert lvl.orders[i] == tail.orders[i - 1];
            }
          }
        }
      }
    }
  }

  /** The remainder is the shortfall of the queue against the requirement: it
      lies in [0, required], and it is zero exactly when the queue held at
      least the required quantity. */
  lemma {:induction false} MatchRemainderIsShortfall(lvl: Level, required: int)
    ensures required >= 0 && NonNegative(lvl.orders) ==>
      && Match(lvl, required).remaining == Max(0, required - Sum(lvl.orders))
      && 0 <= Match(lvl, required).remaining <= required
      && (Match(lvl, required).remaining == 0 <==> Sum(lvl.orders) >= required)
    decreases |lvl.orders|
  {
    if |lvl.orders| > 0 && required >= 0 && NonNegative(lvl.orders) {
      var head := lvl.orders[0];
      SumNonNegative(lvl.orders[1..]);
      if head.quantity <= required {
        MatchRemainderIsShortfall(Level(lvl.total - head.quantity, lvl.orders[1..]), required - head.quantity);
      }
    }
  }

  lemma {:induction false} SumNonNegative(os: seq<Order>)
    requires NonNegative(os)
    ensures Sum(os) >= 0
  {
    if |os| > 0 {
      SumNonNegative(os[1..]);
    }
  }

  /** Matching only shortens or reduces the queue, so it brings in no new id. */
  lemma MatchKeepsIds(lvl: Level, required: int, n: nat)
    requires QueueIdsBelow(lvl.orders, n)
    ensures QueueIdsBelow(Match(lvl, required).level.orders, n)
  {
    var r := Match(lvl, required);
    MatchStopsInside(lvl, required);
    if |r.level.orders| > 0 {
      var k := |lvl.orders| - |r.level.orders|;
      forall i | 0 <= i < |r.level.orders|
        ensures r.level.orders[i].id < n
      {
        if i > 0 {
          assert r.level.orders[i] == r.level.orders[1..][i - 1] == lvl.orders[k + 1..][i - 1];
        }
      }
    }
  }
}
