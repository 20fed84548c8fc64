/** The trend system's order engine for one market (system.py). A `System`
    holds the snapshot its constructor fetched (market metadata, order book,
    account, this market's positions split by side, resting buy and sell
    orders) and appends every call it would make to the exchange's private
    client to `actions`. Each operation is specified by a function of the
    snapshot, and the lemmas below state what those functions promise. */
module TradingSystem {
  import opened Types
  import opened Sizing
  import Stats

  /** Risk limits fixed in System.__init__. */
  const MaxPositions: int := 5
  const MaxPositionsPerSide: int := 3
  const MaxRisk: real := 0.02
  const StoplossDelta: real := 0.2
  const MaxEquityRatio: real := MaxRisk / StoplossDelta
  const MaxPositionSize: real := 10000.0
  /** The stop-loss prices its market order at this book level (bids[10] /
      asks[10]), so the book must hold more levels than this. */
  const StopDepth: nat := 10

  // ---------------------------------------------------------------------------
  // Positions by side
  // ---------------------------------------------------------------------------

  /** `[x for x in positions if x['side'] == side]`. */
  function PositionsOnSide(ps: seq<Position>, side: string): (r: seq<Position>)
    ensures |r| <= |ps|
    ensures forall i :: 0 <= i < |r| ==> r[i].side == side
  {
    if ps == [] then []
    else
      var last := ps[|ps| - 1];
      PositionsOnSide(ps[..|ps| - 1], side) + (if last.side == side then [last] else [])
  }

  /** A position is kept exactly when it is on the requested side. */
  lemma {:induction false} PositionsOnSideMembership(ps: seq<Position>, side: string, p: Position)
    ensures p in PositionsOnSide(ps, side) <==> p in ps && p.side == side
  {
    if ps != [] {
      var init := ps[..|ps| - 1];
      PositionsOnSideMembership(init, side, p);
      assert ps == init + [ps[|ps| - 1]];
    }
  }

  /** Selecting by side commutes with concatenation, so the kept positions
      keep their original order. */
  lemma {:induction false} PositionsOnSideAppend(a: seq<Position>, b: seq<Position>, side: string)
    ensures PositionsOnSide(a + b, side) == PositionsOnSide(a, side) + PositionsOnSide(b, side)
  {
    if b == [] {
      assert a + b == a;
    } else {
      var init := b[..|b| - 1];
      assert (a + b)[..|a + b| - 1] == a + init;
      assert (a + b)[|a + b| - 1] == b[|b| - 1];
      PositionsOnSideAppend(a, init, side);
    }
  }

  /** Every position lands in exactly one of the two lists when all sides are
      LONG or SHORT; positions on any other side are dropped. */
  lemma {:induction false} SplitCountsEveryPosition(ps: seq<Position>)
    ensures |PositionsOnSide(ps, LONG)| + |PositionsOnSide(ps, SHORT)| <= |ps|
    ensures (forall i :: 0 <= i < |ps| ==> ps[i].side in {LONG, SHORT}) ==>
              |PositionsOnSide(ps, LONG)| + |PositionsOnSide(ps, SHORT)| == |ps|
  {
    if ps != [] {
      var init := ps[..|ps| - 1];
      SplitCountsEveryPosition(init);
      if forall i :: 0 <= i < |ps| ==> ps[i].side in {LONG, SHORT} {
        assert forall i :: 0 <= i < |init| ==> init[i].side in {LONG, SHORT} by {
          forall i | 0 <= i < |init| ensures init[i].side in {LONG, SHORT} {
            assert init[i] == ps[i];
          }
        }
        assert ps[|ps| - 1].side in {LONG, SHORT};
      }
    }
  }

  // ---------------------------------------------------------------------------
  // The snapshot and what each operation emits
  // ---------------------------------------------------------------------------

  datatype Snapshot = Snapshot(
    market: string,
    info: MarketInfo,
    book: OrderBook,
    equity: real,
    openPositions: seq<Position>,  // account['openPositions'], every market
    long: seq<Position>,           // this market's LONG positions
    short: seq<Position>,          // this market's SHORT positions
    buyOrders: seq<Order>,
    sellOrders: seq<Order>)

  /** What the engine relies on from a fetched snapshot: both sides of the book
      have a best level (the constructor computes the mid price), and the
      sizing divisors are positive. */
  predicate ValidSnapshot(s: Snapshot)
  {
    && |s.book.bids| > 0 && |s.book.asks| > 0
    && s.info.stepSize > 0.0 && s.info.indexPrice > 0.0
  }

  /** The entry size: min(equity * max_equity_ratio, max_position_size) /
      indexPrice, truncated to whole steps, at least minOrderSize. */
  function EntrySize(s: Snapshot): real
    requires ValidSnapshot(s)
  {
    OrderSize(RiskNotional(s.equity, MaxEquityRatio, MaxPositionSize),
              s.info.indexPrice, s.info.stepSize, s.info.minOrderSize)
  }

  /** A post-only limit order with the one-hour expiry. */
  function LimitOrder(market: string, side: Side, size: real, price: real, cancelId: Option<string>): OrderRequest
  {
    OrderRequest(market, side, Limit, true, size, price, MakerFee, GoodTilTime, OneHour, cancelId)
  }

  predicate LongEntryBlocked(s: Snapshot)
  {
    || |s.long| > 0 || |s.buyOrders| > 0
    || |s.openPositions| > MaxPositions
    || |PositionsOnSide(s.openPositions, LONG)| > MaxPositionsPerSide
  }

  predicate ShortEntryBlocked(s: Snapshot)
  {
    || |s.short| > 0 || |s.sellOrders| > 0
    || |s.openPositions| > MaxPositions
    || |PositionsOnSide(s.openPositions, SHORT)| > MaxPositionsPerSide
  }

  /** execute_long_entry: unless blocked, cancel the resting buy orders and
      place a post-only buy at the best bid. */
  function LongEntryActions(s: Snapshot): (r: seq<Action>)
    requires ValidSnapshot(s)
    ensures |r| <= 1 && (r == [] <==> LongEntryBlocked(s))
    ensures forall a :: a in r ==> a.Create? && a.request.side == Buy && a.request.postOnly
  {
    if LongEntryBlocked(s) then []
    else Cancels(s.buyOrders) + [Create(LimitOrder(s.market, Buy, EntrySize(s), s.book.bids[0].price, None))]
  }

  /** execute_short_entry: the mirror image at the best ask. */
  function ShortEntryActions(s: Snapshot): (r: seq<Action>)
    requires ValidSnapshot(s)
    ensures |r| <= 1 && (r == [] <==> ShortEntryBlocked(s))
    ensures forall a :: a in r ==> a.Create? && a.request.side == Sell && a.request.postOnly
  {
    if ShortEntryBlocked(s) then []
    else Cancels(s.sellOrders) + [Create(LimitOrder(s.market, Sell, EntrySize(s), s.book.asks[0].price, None))]
  }

  /** The order that closes the first long position: a sell at the best ask
      for its open size, or, when that size is below the exchange minimum, a
      buy of the minimum size at the best bid. */
  function LongExitOrder(s: Snapshot): OrderRequest
    requires ValidSnapshot(s) && |s.long| > 0
  {
    var size := s.long[0].sumOpen;
    if size < s.info.minOrderSize then LimitOrder(s.market, Buy, s.info.minOrderSize, s.book.bids[0].price, None)
    else LimitOrder(s.market, Sell, size, s.book.asks[0].price, None)
  }

  function ShortExitOrder(s: Snapshot): OrderRequest
    requires ValidSnapshot(s) && |s.short| > 0
  {
    var size := s.short[0].sumOpen;
    if size < s.info.minOrderSize then LimitOrder(s.market, Sell, s.info.minOrderSize, s.book.asks[0].price, None)
    else LimitOrder(s.market, Buy, size, s.book.bids[0].price, None)
  }

  /** execute_long_exit: with a long position and no resting sell, cancel the
      resting buys and place the exit order. */
  function LongExitActions(s: Snapshot): (r: seq<Action>)
    requires ValidSnapshot(s)
    ensures r == [] <==> |s.long| == 0 || |s.sellOrders| > 0
    ensures r != [] ==> && |r| == |s.buyOrders| + 1 && r[|r| - 1].Create?
                        && forall i :: 0 <= i < |s.buyOrders| ==> r[i] == Cancel(s.buyOrders[i].id)
  {
    if |s.long| == 0 || |s.sellOrders| > 0 then []
    else Cancels(s.buyOrders) + [Create(LongExitOrder(s))]
  }

  /** execute_short_exit: with a short position and no resting buy, place the
      exit order; it too calls cancel_buy_orders. */
  function ShortExitActions(s: Snapshot): (r: seq<Action>)
    requires ValidSnapshot(s)
    ensures r == [] <==> |s.short| == 0 || |s.buyOrders| > 0
    ensures r != [] ==> |r| == 1 && r[0].Create?
  {
    if |s.short| == 0 || |s.buyOrders| > 0 then []
    else Cancels(s.buyOrders) + [Create(ShortExitOrder(s))]
  }

  /** The market fill-or-kill order that closes one position. */
  function StopOrder(market: string, side: Side, size: real, price: real): OrderRequest
  {
    OrderRequest(market, side, Market, false, size, price, StopFee, FillOrKill, OneHour, None)
  }

  /** One stop order per position, in order. */
  function StopOrders(market: string, ps: seq<Position>, side: Side, price: real): (r: seq<Action>)
    ensures |r| == |ps|
    ensures forall i :: 0 <= i < |ps| ==> r[i] == Create(StopOrder(market, side, ps[i].sumOpen, price))
  {
    if ps == [] then []
    else StopOrders(market, ps[..|ps| - 1], side, price)
         + [Create(StopOrder(market, side, ps[|ps| - 1].sumOpen, price))]
  }

  /** What a stop-loss emits, and whether it ran to the end: with fewer than
      eleven levels on the closing side, the first position's book lookup
      raises after the cancels have gone out. */
  datatype StopOutcome = StopOutcome(actions: seq<Action>, completed: bool)

  function LongStopLoss(s: Snapshot): (o: StopOutcome)
    ensures !o.completed <==> |s.long| > 0 && |s.book.bids| <= StopDepth
    ensures |o.actions| == |s.buyOrders| + |s.sellOrders| + (if o.completed then |s.long| else 0)
    ensures forall i :: |s.buyOrders| + |s.sellOrders| <= i < |o.actions| ==>
              o.actions[i].Create? && o.actions[i].request.side == Sell && o.actions[i].request.orderType == Market
  {
    var stops := if |s.long| > 0 && |s.book.bids| > StopDepth
                 then StopOrders(s.market, s.long, Sell, s.book.bids[StopDepth].price) else [];
    StopOutcome(Cancels(s.buyOrders) + Cancels(s.sellOrders) + stops, |s.long| == 0 || |s.book.bids| > StopDepth)
  }

  function ShortStopLoss(s: Snapshot): (o: StopOutcome)
    ensures !o.completed <==> |s.short| > 0 && |s.book.asks| <= StopDepth
    ensures |o.actions| == |s.buyOrders| + |s.sellOrders| + (if o.completed then |s.short| else 0)
    ensures forall i :: |s.buyOrders| + |s.sellOrders| <= i < |o.actions| ==>
              o.actions[i].Create? && o.actions[i].request.side == Buy && o.actions[i].request.orderType == Market
  {
    var stops := if |s.short| > 0 && |s.book.asks| > StopDepth
                 then StopOrders(s.market, s.short, Buy, s.book.asks[StopDepth].price) else [];
    StopOutcome(Cancels(s.buyOrders) + Cancels(s.sellOrders) + stops, |s.short| == 0 || |s.book.asks| > StopDepth)
  }

  /** Appending two pieces one after another appends their concatenation. */
  lemma AppendTwo<T>(a: seq<T>, b: seq<T>, c: seq<T>)
    ensures a + b + c == a + (b + c)
  {}

  /** Appending three pieces one after another appends their concatenation. */
  lemma AppendThree<T>(a: seq<T>, b: seq<T>, c: seq<T>, d: seq<T>)
    ensures a + b + c + d == a + (b + c + d)
  {}

  /** The replacement for a resting order: the loop's side (buy for the
      resting buys, sell for the resting sells, whatever the order's own side
      field says), the order's size, at `best`, cancelling the old order in
      the same call. */
  function Replacement(market: string, side: Side, o: Order, best: real): OrderRequest
  {
    LimitOrder(market, side, o.size, best, Some(o.id))
  }

  /** One replacement per resting order whose price differs from `best`, in
      order; orders already at `best` get nothing. */
  function Repeg(market: string, side: Side, orders: seq<Order>, best: real): (r: seq<Action>)
    ensures |r| <= |orders|
    ensures forall i :: 0 <= i < |r| ==>
              && r[i].Create?
              && r[i].request.side == side
              && r[i].request.price == best
              && r[i].request.orderType == Limit && r[i].request.postOnly
              && r[i].request.cancelId.Some?
              && exists j :: 0 <= j < |orders| && orders[j].price != best &&
                   r[i].request == Replacement(market, side, orders[j], best)
  {
    if orders == [] then []
    else
      var init := orders[..|orders| - 1];
      var last := orders[|orders| - 1];
      var prev := Repeg(market, side, init, best);
      assert forall i :: 0 <= i < |init| ==> init[i] == orders[i];
      prev + (if last.price != best then [Create(Replacement(market, side, last, best))] else [])
  }

  /** update_limit_orders: re-peg resting buys to the best bid, then resting
      sells to the best ask. */
  function UpdateActions(s: Snapshot): (r: seq<Action>)
    requires ValidSnapshot(s)
    ensures |r| <= |s.buyOrders| + |s.sellOrders|
    ensures forall a :: a in r ==> && a.Create? && a.request.postOnly && a.request.cancelId.Some?
                                   && (a.request.side == Buy ==> a.request.price == s.book.bids[0].price)
                                   && (a.request.side == Sell ==> a.request.price == s.book.asks[0].price)
  {
    (if |s.buyOrders| > 0 then Repeg(s.market, Buy, s.buyOrders, s.book.bids[0].price) else [])
    + (if |s.sellOrders| > 0 then Repeg(s.market, Sell, s.sellOrders, s.book.asks[0].price) else [])
  }

  // ---------------------------------------------------------------------------
  // What the operations promise
  // ---------------------------------------------------------------------------

  /** The long entry does nothing exactly when a long position exists, a buy
      order rests, or a position cap is strictly exceeded. */
  lemma LongEntryGuard(s: Snapshot)
    requires ValidSnapshot(s)
    ensures LongEntryActions(s) == [] <==>
              (|s.long| > 0 || |s.buyOrders| > 0 || |s.openPositions| > MaxPositions
               || |PositionsOnSide(s.openPositions, LONG)| > MaxPositionsPerSide)
  {}

  lemma ShortEntryGuard(s: Snapshot)
    requires ValidSnapshot(s)
    ensures ShortEntryActions(s) == [] <==>
              (|s.short| > 0 || |s.sellOrders| > 0 || |s.openPositions| > MaxPositions
               || |PositionsOnSide(s.openPositions, SHORT)| > MaxPositionsPerSide)
  {}

  /** A long entry that goes ahead is exactly one post-only buy at the best
      bid, sized at least the exchange minimum, and cancels nothing: the guard
      already required that no buy order rests. */
  lemma LongEntryIsOneBuy(s: Snapshot)
    requires ValidSnapshot(s) && !LongEntryBlocked(s)
    ensures |LongEntryActions(s)| == 1 && NoCancels(LongEntryActions(s))
    ensures var r := LongEntryActions(s)[0].request;
            && r.side == Buy && r.orderType == Limit && r.postOnly
            && r.price == s.book.bids[0].price
            && r.size >= s.info.minOrderSize
            && r.size == EntrySize(s)
  {
    assert Cancels(s.buyOrders) == [];
  }

  lemma ShortEntryIsOneSell(s: Snapshot)
    requires ValidSnapshot(s) && !ShortEntryBlocked(s)
    ensures |ShortEntryActions(s)| == 1 && NoCancels(ShortEntryActions(s))
    ensures var r := ShortEntryActions(s)[0].request;
            && r.side == Sell && r.orderType == Limit && r.postOnly
            && r.price == s.book.asks[0].price
            && r.size >= s.info.minOrderSize
            && r.size == EntrySize(s)
  {
    assert Cancels(s.sellOrders) == [];
  }

  /** Entry sizing: the size before the minimum floor is a whole number of
      steps not above the risk notional over the index price; the final size
      is never below the minimum, and never shrinks as equity grows. */
  lemma EntrySizeProperties(s: Snapshot, richer: real)
    requires ValidSnapshot(s) && s.equity <= richer
    ensures var raw := RiskNotional(s.equity, MaxEquityRatio, MaxPositionSize) / s.info.indexPrice;
            var pre := StepFloor(raw, s.info.stepSize);
            && IsStepMultiple(pre, s.info.stepSize) && pre <= raw < pre + s.info.stepSize
            && EntrySize(s) == Max(pre, s.info.minOrderSize)
            && EntrySize(s) >= s.info.minOrderSize
            && EntrySize(s) <= EntrySize(s.(equity := richer))
  {
    OrderSizeStepAligned(RiskNotional(s.equity, MaxEquityRatio, MaxPositionSize),
                         s.info.indexPrice, s.info.stepSize, s.info.minOrderSize);
    RiskSizeMonotoneInEquity(s.equity, richer, MaxEquityRatio, MaxPositionSize,
                             s.info.indexPrice, s.info.stepSize, s.info.minOrderSize);
  }

  /** The long exit, when it acts, cancels every resting buy in order and then
      places one order: a sell of the open size at the best ask, or for a dust
      position below the minimum, a buy of the minimum size at the best bid. */
  lemma LongExitShape(s: Snapshot)
    requires ValidSnapshot(s)
    ensures |s.long| == 0 || |s.sellOrders| > 0 ==> LongExitActions(s) == []
    ensures |s.long| > 0 && |s.sellOrders| == 0 ==>
              var a := LongExitActions(s);
              var r := a[|a| - 1].request;
              && |a| == |s.buyOrders| + 1
              && (forall i :: 0 <= i < |s.buyOrders| ==> a[i] == Cancel(s.buyOrders[i].id))
              && a[|a| - 1].Create? && r.orderType == Limit && r.postOnly
              && (s.long[0].sumOpen >= s.info.minOrderSize ==>
                    r.side == Sell && r.size == s.long[0].sumOpen && r.price == s.book.asks[0].price)
              && (s.long[0].sumOpen < s.info.minOrderSize ==>
                    r.side == Buy && r.size == s.info.minOrderSize && r.price == s.book.bids[0].price)
  {}

  /** The short exit acts only when no buy order rests, so its
      cancel_buy_orders call emits nothing: the result is the one exit order. */
  lemma ShortExitShape(s: Snapshot)
    requires ValidSnapshot(s)
    ensures |s.short| == 0 || |s.buyOrders| > 0 ==> ShortExitActions(s) == []
    ensures |s.short| > 0 && |s.buyOrders| == 0 ==>
              var a := ShortExitActions(s);
              && |a| == 1 && NoCancels(a) && a[0].request.orderType == Limit && a[0].request.postOnly
              && (s.short[0].sumOpen >= s.info.minOrderSize ==>
                    a[0].request.side == Buy && a[0].request.size == s.short[0].sumOpen
                    && a[0].request.price == s.book.bids[0].price)
              && (s.short[0].sumOpen < s.info.minOrderSize ==>
                    a[0].request.side == Sell && a[0].request.size == s.info.minOrderSize
                    && a[0].request.price == s.book.asks[0].price)
  {
    if |s.short| > 0 && |s.buyOrders| == 0 {
      assert Cancels(s.buyOrders) == [];
    }
  }

  /** The long stop-loss cancels every resting buy and then every resting
      sell, and then, given eleven bid levels, sends one market fill-or-kill
      sell per long position for its open size at the eleventh bid. It fails
      only when a long position exists and the book is too shallow. */
  lemma LongStopLossShape(s: Snapshot)
    ensures var o := LongStopLoss(s);
            var nb := |s.buyOrders|;
            var nc := nb + |s.sellOrders|;
            && (!o.completed <==> |s.long| > 0 && |s.book.bids| <= StopDepth)
            && |o.actions| == nc + (if o.completed then |s.long| else 0)
            && (forall i :: 0 <= i < nb ==> o.actions[i] == Cancel(s.buyOrders[i].id))
            && (forall i :: nb <= i < nc ==> o.actions[i] == Cancel(s.sellOrders[i - nb].id))
            && (forall i :: nc <= i < |o.actions| ==>
                  var r := o.actions[i].request;
                  && o.actions[i].Create?
                  && r.side == Sell && r.orderType == Market && !r.postOnly && r.timeInForce == FillOrKill
                  && r.size == s.long[i - nc].sumOpen && r.price == s.book.bids[StopDepth].price)
  {}

  lemma ShortStopLossShape(s: Snapshot)
    ensures var o := ShortStopLoss(s);
            var nb := |s.buyOrders|;
            var nc := nb + |s.sellOrders|;
            && (!o.completed <==> |s.short| > 0 && |s.book.asks| <= StopDepth)
            && |o.actions| == nc + (if o.completed then |s.short| else 0)
            && (forall i :: 0 <= i < nb ==> o.actions[i] == Cancel(s.buyOrders[i].id))
            && (forall i :: nb <= i < nc ==> o.actions[i] == Cancel(s.sellOrders[i - nb].id))
            && (forall i :: nc <= i < |o.actions| ==>
                  var r := o.actions[i].request;
                  && o.actions[i].Create?
                  && r.side == Buy && r.orderType == Market && !r.postOnly && r.timeInForce == FillOrKill
                  && r.size == s.short[i - nc].sumOpen && r.price == s.book.asks[StopDepth].price)
  {}

  /** The orders whose price differs from `best`. */
  function Stale(orders: seq<Order>, best: real): (r: seq<Order>)
    ensures forall i :: 0 <= i < |r| ==> r[i] in orders && r[i].price != best
  {
    if orders == [] then []
    else
      var last := orders[|orders| - 1];
      Stale(orders[..|orders| - 1], best) + (if last.price != best then [last] else [])
  }

  /** An order is stale exactly when it rests and is off the best price. */
  lemma {:induction false} StaleMembership(orders: seq<Order>, best: real, o: Order)
    ensures o in Stale(orders, best) <==> o in orders && o.price != best
  {
    if orders != [] {
      var init := orders[..|orders| - 1];
      StaleMembership(init, best, o);
      assert orders == init + [orders[|orders| - 1]];
    }
  }

  /** Stale orders keep their relative order: the stale orders of a
      concatenation are those of each part, one after the other. */
  lemma {:induction false} StaleAppend(xs: seq<Order>, ys: seq<Order>, best: real)
    ensures Stale(xs + ys, best) == Stale(xs, best) + Stale(ys, best)
    decreases |ys|
  {
    if ys == [] {
      assert xs + ys == xs;
    } else {
      var init := ys[..|ys| - 1];
      assert (xs + ys)[..|xs + ys| - 1] == xs + init;
      StaleAppend(xs, init, best);
    }
  }

  /** Re-pegging emits exactly one replacement per stale order, in order, each
      on the loop's side, keeping that order's size and cancelling its id. */
  lemma {:induction false} RepegReplacesEachStaleOrder(market: string, side: Side, orders: seq<Order>, best: real)
    ensures var st := Stale(orders, best);
            var r := Repeg(market, side, orders, best);
            && |r| == |st|
            && forall i :: 0 <= i < |r| ==>
                 r[i] == Create(LimitOrder(market, side, st[i].size, best, Some(st[i].id)))
  {
    if orders != [] {
      RepegReplacesEachStaleOrder(market, side, orders[..|orders| - 1], best);
    }
  }

  /** The book as the exchange holds it after every replacement went through:
      each resting order now rests at `best`. */
  function AtPrice(orders: seq<Order>, best: real): (r: seq<Order>)
    ensures |r| == |orders|
    ensures forall i :: 0 <= i < |r| ==> r[i].price == best && r[i].size == orders[i].size
  {
    seq(|orders|, i requires 0 <= i < |orders| => orders[i].(price := best))
  }

  /** Re-pegging orders that already rest at the best price emits nothing. */
  lemma {:induction false} RepegAtBestIsEmpty(market: string, side: Side, orders: seq<Order>, best: real)
    requires forall i :: 0 <= i < |orders| ==> orders[i].price == best
    ensures Repeg(market, side, orders, best) == []
  {
    if orders != [] {
      var init := orders[..|orders| - 1];
      assert forall i :: 0 <= i < |init| ==> init[i].price == best by {
        forall i | 0 <= i < |init| ensures init[i].price == best {
          assert init[i] == orders[i];
        }
      }
      RepegAtBestIsEmpty(market, side, init, best);
    }
  }

  /** Idempotence: once the replacements are applied and the book has not
      moved, a second update_limit_orders emits nothing. */
  lemma UpdateIsIdempotent(s: Snapshot)
    requires ValidSnapshot(s)
    ensures var s' := s.(buyOrders := AtPrice(s.buyOrders, s.book.bids[0].price),
                         sellOrders := AtPrice(s.sellOrders, s.book.asks[0].price));
            UpdateActions(s') == []
  {
    RepegAtBestIsEmpty(s.market, Buy, AtPrice(s.buyOrders, s.book.bids[0].price), s.book.bids[0].price);
    RepegAtBestIsEmpty(s.market, Sell, AtPrice(s.sellOrders, s.book.asks[0].price), s.book.asks[0].price);
  }

  /** A resting buy at 100 with the best bid now 101 yields one replacement at
      101 of the same size that cancels the old order. */
  lemma RepegExample(market: string, id: string, size: real)
    ensures Repeg(market, Buy, [Order(id, Buy, 100.0, size)], 101.0)
            == [Create(LimitOrder(market, Buy, size, 101.0, Some(id)))]
  {
    assert [Order(id, Buy, 100.0, size)][..0] == [];
  }

  // ---------------------------------------------------------------------------
  // The engine object
  // ---------------------------------------------------------------------------

  class System {
    var market: string
    var marketInfo: MarketInfo
    var orderbook: OrderBook
    var equity: real
    var openPositions: seq<Position>
    var longPositions: seq<Position>
    var shortPositions: seq<Position>
    var buyOrders: seq<Order>
    var sellOrders: seq<Order>
    var meanPrice: real
    var meanStd: real
    var ticker: real
    /** Every call made on the exchange's private client, in order. */
    var actions: seq<Action>

    function Snap(): Snapshot
      reads this`market, this`marketInfo, this`orderbook, this`equity, this`openPositions,
            this`longPositions, this`shortPositions, this`buyOrders, this`sellOrders
    {
      Snapshot(market, marketInfo, orderbook, equity, openPositions,
               longPositions, shortPositions, buyOrders, sellOrders)
    }

    ghost predicate Valid()
      reads this`market, this`marketInfo, this`orderbook, this`equity, this`openPositions,
            this`longPositions, this`shortPositions, this`buyOrders, this`sellOrders
    {
      ValidSnapshot(Snap())
    }

    /** System.__init__ with the fetched data as arguments: the account, the
        market metadata, the candle closes and their sample deviation (the
        statistics library's value), the book, the resting orders and this
        market's positions. The ticker is the mid-market price. */
    constructor (market: string, info: MarketInfo, book: OrderBook, equity: real,
                 openPositions: seq<Position>, closes: seq<real>, stdev: real,
                 buyOrders: seq<Order>, sellOrders: seq<Order>, positions: seq<Position>)
      requires |book.bids| > 0 && |book.asks| > 0
      requires info.stepSize > 0.0 && info.indexPrice > 0.0
      requires |closes| >= 2 && Stats.IsSampleStdev(stdev, closes)
      ensures Valid()
      ensures Snap() == Snapshot(market, info, book, equity, openPositions,
                                 PositionsOnSide(positions, LONG), PositionsOnSide(positions, SHORT),
                                 buyOrders, sellOrders)
      ensures meanPrice == Stats.Mean(closes) && meanStd == stdev
      ensures ticker == MidPrice(book)
      ensures actions == []
    {
      this.market := market;
      this.marketInfo := info;
      this.orderbook := book;
      this.equity := equity;
      this.openPositions := openPositions;
      this.meanPrice := Stats.Mean(closes);
      this.meanStd := stdev;
      this.buyOrders := buyOrders;
      this.sellOrders := sellOrders;
      this.longPositions := PositionsOnSide(positions, LONG);
      this.shortPositions := PositionsOnSide(positions, SHORT);
      this.ticker := MidPrice(book);
      this.actions := [];
    }

    /** get_positions with the exchange's answer as argument. */
    method GetPositions(fetched: seq<Position>)
      modifies this`longPositions, this`shortPositions
      ensures longPositions == PositionsOnSide(fetched, LONG)
      ensures shortPositions == PositionsOnSide(fetched, SHORT)
    {
      longPositions := PositionsOnSide(fetched, LONG);
      shortPositions := PositionsOnSide(fetched, SHORT);
    }

    method CancelBuyOrders()
      modifies this`actions
      ensures actions == old(actions) + Cancels(buyOrders)
    {
      for i := 0 to |buyOrders|
        invariant actions == old(actions) + Cancels(buyOrders[..i])
      {
        assert buyOrders[..i + 1][..i] == buyOrders[..i];
        actions := actions + [Cancel(buyOrders[i].id)];
      }
      assert buyOrders[..|buyOrders|] == buyOrders;
    }

    method CancelSellOrders()
      modifies this`actions
      ensures actions == old(actions) + Cancels(sellOrders)
    {
      for i := 0 to |sellOrders|
        invariant actions == old(actions) + Cancels(sellOrders[..i])
      {
        assert sellOrders[..i + 1][..i] == sellOrders[..i];
        actions := actions + [Cancel(sellOrders[i].id)];
      }
      assert sellOrders[..|sellOrders|] == sellOrders;
    }

    /** The entry size computed step by step as the source does. */
    method ComputeEntrySize() returns (size: real)
      requires Valid()
      ensures size == EntrySize(Snap())
    {
      size := Min(equity * MaxEquityRatio, MaxPositionSize);
      assert size == RiskNotional(equity, MaxEquityRatio, MaxPositionSize);
      size := size / marketInfo.indexPrice;
      size := size - PyMod(size, marketInfo.stepSize);
      assert size == StepFloor(RiskNotional(equity, MaxEquityRatio, MaxPositionSize) / marketInfo.indexPrice, marketInfo.stepSize);
      size := Max(size, marketInfo.minOrderSize);
    }

    method ExecuteLongEntry()
      requires Valid()
      modifies this`actions
      ensures actions == old(actions) + LongEntryActions(Snap())
    {
      if |longPositions| > 0 || |buyOrders| > 0 {
        return;
      }
      if |openPositions| > MaxPositions {
        return;
      }
      var longCount := |PositionsOnSide(openPositions, LONG)|;
      if longCount > MaxPositionsPerSide {
        return;
      }
      var size := ComputeEntrySize();
      var request := LimitOrder(market, Buy, size, orderbook.bids[0].price, None);
      CancelBuyOrders();
      actions := actions + [Create(request)];
    }

    method ExecuteShortEntry()
      requires Valid()
      modifies this`actions
      ensures actions == old(actions) + ShortEntryActions(Snap())
    {
      if |shortPositions| > 0 || |sellOrders| > 0 {
        return;
      }
      if |openPositions| > MaxPositions {
        return;
      }
      var shortCount := |PositionsOnSide(openPositions, SHORT)|;
      if shortCount > MaxPositionsPerSide {
        return;
      }
      var size := ComputeEntrySize();
      var request := LimitOrder(market, Sell, size, orderbook.asks[0].price, None);
      CancelSellOrders();
      actions := actions + [Create(request)];
    }

    method ExecuteLongExit()
      requires Valid()
      modifies this`actions
      ensures actions == old(actions) + LongExitActions(Snap())
    {
      if |longPositions| == 0 || |sellOrders| > 0 {
        return;
      }
      var size := longPositions[0].sumOpen;
      var request := LimitOrder(market, Sell, size, orderbook.asks[0].price, None);
      if size < marketInfo.minOrderSize {
        request := request.(side := Buy, size := marketInfo.minOrderSize, price := orderbook.bids[0].price);
      }
      assert request == LongExitOrder(Snap());
      ghost var start := actions;
      CancelBuyOrders();
      actions := actions + [Create(request)];
      AppendTwo(start, Cancels(buyOrders), [Create(request)]);
    }

    method ExecuteShortExit()
      requires Valid()
      modifies this`actions
      ensures actions == old(actions) + ShortExitActions(Snap())
    {
      if |shortPositions| == 0 || |buyOrders| > 0 {
        return;
      }
      var size := shortPositions[0].sumOpen;
      var request := LimitOrder(market, Buy, size, orderbook.bids[0].price, None);
      if size < marketInfo.minOrderSize {
        request := request.(side := Sell, size := marketInfo.minOrderSize, price := orderbook.asks[0].price);
      }
      assert request == ShortExitOrder(Snap());
      ghost var start := actions;
      CancelBuyOrders();
      actions := actions + [Create(request)];
      AppendTwo(start, Cancels(buyOrders), [Create(request)]);
    }

    /** The stop-loss orders for `ps`, priced at the eleventh level of
        `levels`; the lookup raises (false) when that level is missing and a
        position needs it. */
    method SendStopOrders(ps: seq<Position>, side: Side, levels: seq<Level>) returns (completed: bool)
      modifies this`actions
      ensures completed <==> |ps| == 0 || |levels| > StopDepth
      ensures actions == old(actions) +
                (if |ps| > 0 && |levels| > StopDepth then StopOrders(market, ps, side, levels[StopDepth].price) else [])
    {
      for i := 0 to |ps|
        invariant i > 0 ==> |levels| > StopDepth
        invariant i > 0 ==> actions == old(actions) + StopOrders(market, ps[..i], side, levels[StopDepth].price)
        invariant i == 0 ==> actions == old(actions)
      {
        if |levels| <= StopDepth {
          return false;
        }
        var request := StopOrder(market, side, ps[i].sumOpen, levels[StopDepth].price);
        assert ps[..i + 1][..i] == ps[..i];
        actions := actions + [Create(request)];
      }
      if |ps| > 0 {
        assert ps[..|ps|] == ps;
      }
      return true;
    }

    /** execute_long_stoploss; `completed` is false when the book lookup for
        the stop price raised. */
    method ExecuteLongStoploss() returns (completed: bool)
      modifies this`actions
      ensures actions == old(actions) + LongStopLoss(Snap()).actions
      ensures completed == LongStopLoss(Snap()).completed
    {
      ghost var start := actions;
      CancelBuyOrders();
      CancelSellOrders();
      ghost var cancelled := actions;
      completed := SendStopOrders(longPositions, Sell, orderbook.bids);
      AppendThree(start, Cancels(buyOrders), Cancels(sellOrders), actions[|cancelled|..]);
    }

    method ExecuteShortStoploss() returns (completed: bool)
      modifies this`actions
      ensures actions == old(actions) + ShortStopLoss(Snap()).actions
      ensures completed == ShortStopLoss(Snap()).completed
    {
      ghost var start := actions;
      CancelBuyOrders();
      CancelSellOrders();
      ghost var cancelled := actions;
      completed := SendStopOrders(shortPositions, Buy, orderbook.asks);
      AppendThree(start, Cancels(buyOrders), Cancels(sellOrders), actions[|cancelled|..]);
    }

    /** Appends the replacements on `side` for `orders` against `best`. */
    method RepegOrders(orders: seq<Order>, side: Side, best: real)
      modifies this`actions
      ensures actions == old(actions) + Repeg(market, side, orders, best)
    {
      for i := 0 to |orders|
        invariant actions == old(actions) + Repeg(market, side, orders[..i], best)
      {
        assert orders[..i + 1][..i] == orders[..i];
        if orders[i].price != best {
          actions := actions + [Create(Replacement(market, side, orders[i], best))];
        }
      }
      assert orders[..|orders|] == orders;
    }

    method UpdateLimitOrders()
      requires Valid()
      modifies this`actions
      ensures actions == old(actions) + UpdateActions(Snap())
    {
      ghost var start := actions;
      ghost var buys := if |buyOrders| > 0 then Repeg(market, Buy, buyOrders, orderbook.bids[0].price) else [];
      ghost var sells := if |sellOrders| > 0 then Repeg(market, Sell, sellOrders, orderbook.asks[0].price) else [];
      if |buyOrders| > 0 {
        RepegOrders(buyOrders, Buy, orderbook.bids[0].price);
      }
      assert actions == start + buys;
      if |sellOrders| > 0 {
        RepegOrders(sellOrders, Sell, orderbook.asks[0].price);
      }
      assert actions == start + buys + sells;
      AppendTwo(start, buys, sells);
    }
  }
}
