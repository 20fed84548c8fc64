/** The mean-reversion bot (app.py, Bot.run_meanreversion_strategy). For each
    market it reads a Coinbase candle history, its mean and sample deviation,
    the order book, this market's positions and its first resting limit buy
    and sell order. Flat and with the latest low an anomaly, it bids; holding
    an open position, it offers the position at a take-profit price, or at
    the ask once the price has fallen far enough. The deviation seen at entry
    is kept in a per-market record and read back at exit. */
module MeanReversion {
  import opened Types
  import opened Sizing
  import Stats
  import Strategies

  /** Bot.__init__ defaults. */
  const DefaultNumSamples: nat := 20
  const DefaultNumStd: real := 2.0
  /** The entry notional cap per market, in quote currency. */
  const MaxNotional: real := 10000.0
  /** The take-profit is at least this multiple of the entry price. */
  const MinProfitRatio: real := 1.0075
  /** The exit switches to the ask once it is this fraction of the profit
      target below the entry price. */
  const StopFraction: real := 0.67

  /** One row of Coinbase's candle response: [time, low, high, open, close,
      volume], newest first. */
  datatype CandleRow = CandleRow(time: int, low: real, high: real, open: real, close: real, volume: real)

  /** The per-market record: {'target_sigma': sigma}. */
  datatype Record = Record(targetSigma: real)

  /** The exceptions that end a run: no candle rows (IndexError on
      data[-1]), fewer than two closes (StatisticsError), an empty side of
      the book (IndexError), a zero index price or step size in the entry's
      sizing (ZeroDivisionError), no record saved for the market (KeyError). */
  datatype Fault = NoCandles | TooFewSamples | EmptyBook | ZeroDivision | MissingRecord

  /** What the exchange and Coinbase answer for one market. `sigma` is the
      statistics library's sample deviation of the closes. */
  datatype MarketFeed = MarketFeed(
    market: string,
    info: MarketInfo,
    rows: seq<CandleRow>,
    sigma: real,
    book: OrderBook,
    positions: seq<Position>,
    limitBuyOrders: seq<Order>,   // get_orders(side=BUY, order_type=LIMIT, limit=1)
    limitSellOrders: seq<Order>)  // get_orders(side=SELL, order_type=LIMIT, limit=1)

  /** The bot's parameters for one run; `nAssets` is len(BASE_ASSETS). */
  datatype Params = Params(numSamples: nat, numStd: real, equity: real, nAssets: nat)

  // ---------------------------------------------------------------------------
  // Price history
  // ---------------------------------------------------------------------------

  function Reverse<T>(xs: seq<T>): (r: seq<T>)
    ensures |r| == |xs|
    ensures forall i :: 0 <= i < |xs| ==> r[i] == xs[|xs| - 1 - i]
  {
    if xs == [] then [] else [xs[|xs| - 1]] + Reverse(xs[..|xs| - 1])
  }

  /** `rows[:n][::-1]`: the newest n rows, oldest first. */
  function Recent(rows: seq<CandleRow>, n: nat): (data: seq<CandleRow>)
    ensures |data| == (if n <= |rows| then n else |rows|)
    ensures forall i :: 0 <= i < |data| ==> data[i] == rows[|data| - 1 - i]
  {
    Reverse(rows[..if n <= |rows| then n else |rows|])
  }

  /** `[float(x[4]) for x in data]`: the closes. */
  function Closes(data: seq<CandleRow>): (h: seq<real>)
    ensures |h| == |data|
    ensures forall i :: 0 <= i < |data| ==> h[i] == data[i].close
  {
    seq(|data|, i requires 0 <= i < |data| => data[i].close)
  }

  /** `float(data[-1][1])`: the low of the newest row. */
  function LatestLow(data: seq<CandleRow>): real
    requires |data| > 0
  {
    data[|data| - 1].low
  }

  /** The history keeps the newest rows' closes, oldest first, and the latest
      low is the low of the newest row of the response. */
  lemma PriceHistoryShape(rows: seq<CandleRow>, n: nat)
    requires n > 0 && |rows| > 0
    ensures var data := Recent(rows, n);
            var h := Closes(data);
            && LatestLow(data) == rows[0].low
            && |h| == (if n <= |rows| then n else |rows|)
            && (forall i :: 0 <= i < |h| ==> h[i] == rows[|h| - 1 - i].close)
            && h[|h| - 1] == rows[0].close
  {}

  /** check_price_anomaly: the latest low is below the lower band, so below
      the mean whenever the band lies under it. */
  function Anomaly(latestLow: real, meanPrice: real, numStd: real, meanStd: real): (b: bool)
    ensures numStd >= 0.0 && meanStd >= 0.0 && b ==> latestLow < meanPrice
    ensures numStd == 0.0 || meanStd == 0.0 ==> (b <==> latestLow < meanPrice)
  {
    latestLow < meanPrice - numStd * meanStd
  }

  /** The anomaly test is the Bollinger strategy's entry signal evaluated at
      the latest low instead of the mid price. */
  lemma AnomalyIsBollingerEntry(latestLow: real, meanPrice: real, meanStd: real, cfg: Strategies.BollingerConfig)
    ensures Anomaly(latestLow, meanPrice, cfg.numStd, meanStd)
            == Strategies.EntrySignal(cfg, latestLow, meanPrice, meanStd)
  {}

  // ---------------------------------------------------------------------------
  // Orders
  // ---------------------------------------------------------------------------

  /** The entry's sizing divides by the index price and takes the size
      modulo the step size; either being zero raises ZeroDivisionError. */
  predicate Sizable(f: MarketFeed)
  {
    f.info.indexPrice != 0.0 && f.info.stepSize != 0.0
  }

  /** `sigma` is what statistics.stdev returns for the closes of the recent
      rows: the non-negative root of their sample variance, whenever there
      are at least two of them (with fewer it raises instead). */
  ghost predicate GenuineSigma(numSamples: nat, f: MarketFeed)
  {
    var h := Closes(Recent(f.rows, numSamples));
    |h| >= 2 ==> Stats.IsSampleStdev(f.sigma, h)
  }

  /** With a genuine deviation and a non-negative number of deviations, an
      anomalous latest low lies below the mean of the history. */
  lemma AnomalyIsBelowMean(p: Params, f: MarketFeed)
    requires GenuineSigma(p.numSamples, f) && p.numStd >= 0.0
    requires |Recent(f.rows, p.numSamples)| >= 2
    ensures var data := Recent(f.rows, p.numSamples);
            var mean := Stats.Mean(Closes(data));
            Anomaly(LatestLow(data), mean, p.numStd, f.sigma) ==> LatestLow(data) < mean
  {
    var h := Closes(Recent(f.rows, p.numSamples));
    assert Stats.IsSampleStdev(f.sigma, h);
    if f.sigma > 0.0 {
      MulLeq(0.0, p.numStd, f.sigma);
    }
  }

  /** The entry size: min(equity / number of assets, 10000) / indexPrice,
      truncated to whole steps, at least minOrderSize. */
  function EntrySize(p: Params, f: MarketFeed): real
    requires Sizable(f) && p.nAssets > 0
  {
    OrderSize(Min(p.equity / (p.nAssets as real), MaxNotional), f.info.indexPrice, f.info.stepSize, f.info.minOrderSize)
  }

  /** `cancel_id` of the first resting order, when there is one. */
  function FirstId(orders: seq<Order>): (id: Option<string>)
    ensures id.Some? <==> |orders| > 0
    ensures id.Some? ==> id.value == orders[0].id
  {
    if |orders| > 0 then Some(orders[0].id) else None
  }

  /** The entry bid: post-only, at the lower of the latest low and the best
      bid, thirty-day expiry, replacing the resting limit buy if any. */
  function EntryOrder(p: Params, f: MarketFeed, latestLow: real): OrderRequest
    requires Sizable(f) && p.nAssets > 0 && |f.book.bids| > 0
  {
    OrderRequest(f.market, Buy, Limit, true, EntrySize(p, f), Min(latestLow, f.book.bids[0].price),
                 MakerFee, GoodTilTime, ThirtyDays, FirstId(f.limitBuyOrders))
  }

  /** The take-profit price: max(entry + sigma, entry * 1.0075). */
  function TakeProfit(entry: real, sigma: real): (tp: real)
    ensures tp >= entry + sigma && tp >= entry * MinProfitRatio
    ensures tp == entry + sigma || tp == entry * MinProfitRatio
  {
    Max(entry + sigma, entry * MinProfitRatio)
  }

  /** The stop threshold: the ask has fallen below the entry price by 0.67 of
      the profit target's distance above it, which is at least sigma and at
      least 0.75% of the entry price. */
  function StopCrossed(entry: real, sigma: real, ask: real): (b: bool)
    ensures entry > 0.0 && sigma >= 0.0 && b ==> ask < entry
    ensures b ==> ask < entry - sigma * StopFraction
    ensures b ==> ask < entry - (entry * MinProfitRatio - entry) * StopFraction
  {
    ask < entry - (TakeProfit(entry, sigma) - entry) * StopFraction
  }

  /** The exit price: the take-profit, or the ask once the stop threshold is
      crossed. */
  function ExitPrice(entry: real, sigma: real, ask: real): (price: real)
    ensures price == ask || price == TakeProfit(entry, sigma)
    ensures !StopCrossed(entry, sigma, ask) ==> price >= entry + sigma && price >= entry * MinProfitRatio
  {
    if StopCrossed(entry, sigma, ask) then ask else TakeProfit(entry, sigma)
  }

  /** With a positive entry price and a non-negative sigma, the exit either
      takes at least 0.75% profit, or, exactly when the stop threshold is
      crossed, sells at the ask, below the entry price. */
  lemma ExitPriceProperties(entry: real, sigma: real, ask: real)
    requires entry > 0.0 && sigma >= 0.0
    ensures StopCrossed(entry, sigma, ask) ==> ExitPrice(entry, sigma, ask) == ask < entry
    ensures !StopCrossed(entry, sigma, ask) ==>
              ExitPrice(entry, sigma, ask) == TakeProfit(entry, sigma) >= entry * MinProfitRatio > entry
    ensures ExitPrice(entry, sigma, ask) < entry <==> StopCrossed(entry, sigma, ask)
  {
    var tp := TakeProfit(entry, sigma);
    assert tp - entry >= 0.0;
    assert (tp - entry) * StopFraction >= 0.0;
  }

  /** The exit offer: post-only sell of the position's open size at the exit
      price, thirty-day expiry, replacing the resting limit sell if any. */
  function ExitOrder(f: MarketFeed, sigma: real): OrderRequest
    requires |f.positions| > 0 && |f.book.asks| > 0
  {
    var entry := f.positions[0].entryPrice;
    OrderRequest(f.market, Sell, Limit, true, f.positions[0].sumOpen,
                 ExitPrice(entry, sigma, f.book.asks[0].price),
                 MakerFee, GoodTilTime, ThirtyDays, FirstId(f.limitSellOrders))
  }

  // ---------------------------------------------------------------------------
  // One market, and the whole run
  // ---------------------------------------------------------------------------

  datatype StepResult = Done(actions: seq<Action>, records: map<string, Record>) | Failed(fault: Fault)

  /** The body of the per-market loop. Its faults, in the order the source
      meets them: no candle rows (IndexError on rows[0]), a single sample
      (StatisticsError), then, flat with an anomaly, no bid or a zero divisor,
      or, with an open position, no ask or no saved record. */
  function MarketStep(p: Params, f: MarketFeed, records: map<string, Record>): (r: StepResult)
    requires p.nAssets > 0 && GenuineSigma(p.numSamples, f)
    ensures var data := Recent(f.rows, p.numSamples);
            && (r == Failed(NoCandles) <==> |data| == 0)
            && (r == Failed(TooFewSamples) <==> |data| == 1)
            && (r == Failed(EmptyBook) <==>
                  |data| >= 2 &&
                  if |f.positions| == 0
                  then Anomaly(LatestLow(data), Stats.Mean(Closes(data)), p.numStd, f.sigma) && |f.book.bids| == 0
                  else f.positions[0].status == OPEN && |f.book.asks| == 0)
            && (r == Failed(ZeroDivision) <==>
                  && |data| >= 2 && |f.positions| == 0
                  && Anomaly(LatestLow(data), Stats.Mean(Closes(data)), p.numStd, f.sigma)
                  && |f.book.bids| > 0 && !Sizable(f))
            && (r == Failed(MissingRecord) <==>
                  && |data| >= 2 && |f.positions| > 0 && f.positions[0].status == OPEN
                  && |f.book.asks| > 0 && f.market !in records)
  {
    var data := Recent(f.rows, p.numSamples);
    if |data| == 0 then Failed(NoCandles)
    else if |data| < 2 then Failed(TooFewSamples)
    else
      var meanPrice := Stats.Mean(Closes(data));
      if |f.positions| == 0 then
        if !Anomaly(LatestLow(data), meanPrice, p.numStd, f.sigma) then Done([], records)
        else if |f.book.bids| == 0 then Failed(EmptyBook)
        else if !Sizable(f) then Failed(ZeroDivision)
        else Done([Create(EntryOrder(p, f, LatestLow(data)))], records[f.market := Record(f.sigma)])
      else if f.positions[0].status != OPEN then Done([], records)
      else if |f.book.asks| == 0 then Failed(EmptyBook)
      else if f.market !in records then Failed(MissingRecord)
      else
        var order := ExitOrder(f, records[f.market].targetSigma);
        if |f.limitSellOrders| > 0 && f.limitSellOrders[0].price == order.price then Done([], records)
        else Done([Create(order)], records)
  }

  /** Every market step issues at most one order, never a cancel: a resting
      order is replaced through the order's cancel id. */
  lemma AtMostOneOrderPerMarket(p: Params, f: MarketFeed, records: map<string, Record>)
    requires p.nAssets > 0 && GenuineSigma(p.numSamples, f)
    ensures var r := MarketStep(p, f, records);
            r.Done? ==> |r.actions| <= 1 && NoCancels(r.actions)
  {}

  /** The bot enters only when flat and the latest low is anomalous, and then
      bids min(latest low, best bid) for min(equity / number of assets,
      10000) / indexPrice truncated to whole steps and raised to the minimum
      (so at least the minimum, and whole steps unless raised to it, for a
      positive step), replacing the resting buy, and saving the sigma for the
      exit. A flat market without an anomaly gets nothing; an anomaly with an
      empty bid side, or a zero index price or step size, raises. */
  lemma EntryStep(p: Params, f: MarketFeed, records: map<string, Record>)
    requires p.nAssets > 0 && GenuineSigma(p.numSamples, f) && |f.positions| == 0
    ensures var r := MarketStep(p, f, records);
            var data := Recent(f.rows, p.numSamples);
            r.Done? && |r.actions| > 0 ==>
              && |data| >= 2
              && Anomaly(LatestLow(data), Stats.Mean(Closes(data)), p.numStd, f.sigma)
              && |f.book.bids| > 0 && Sizable(f)
              && var q := r.actions[0].request;
              && r.actions == [Create(q)]
              && q.side == Buy && q.orderType == Limit && q.postOnly && q.ttl == ThirtyDays
              && q.price == Min(LatestLow(data), f.book.bids[0].price)
              && q.price <= f.book.bids[0].price && q.price <= LatestLow(data)
              && q.size == EntrySize(p, f)
              && q.size >= f.info.minOrderSize
              && (f.info.stepSize > 0.0 ==>
                    q.size == f.info.minOrderSize || IsStepMultiple(q.size, f.info.stepSize))
              && q.cancelId == FirstId(f.limitBuyOrders)
              && r.records == records[f.market := Record(f.sigma)]
    ensures var r := MarketStep(p, f, records);
            var data := Recent(f.rows, p.numSamples);
            |data| >= 2 && !Anomaly(LatestLow(data), Stats.Mean(Closes(data)), p.numStd, f.sigma) ==>
              r == Done([], records)
    ensures var r := MarketStep(p, f, records);
            var data := Recent(f.rows, p.numSamples);
            |data| >= 2 && Anomaly(LatestLow(data), Stats.Mean(Closes(data)), p.numStd, f.sigma) ==>
              (r == Failed(EmptyBook) <==> |f.book.bids| == 0)
              && (r == Failed(ZeroDivision) <==> |f.book.bids| > 0 && !Sizable(f))
  {
    var r := MarketStep(p, f, records);
    if r.Done? && |r.actions| > 0 && f.info.stepSize > 0.0 {
      var notional := Min(p.equity / (p.nAssets as real), MaxNotional);
      StepFloorBounds(notional / f.info.indexPrice, f.info.stepSize);
    }
  }

  /** With an open position and its record, the bot offers the whole position
      at the exit price computed from the recorded sigma, unless the resting
      sell already sits at that price, in which case it sends nothing. */
  lemma ExitStep(p: Params, f: MarketFeed, records: map<string, Record>)
    requires p.nAssets > 0 && GenuineSigma(p.numSamples, f)
    requires |Recent(f.rows, p.numSamples)| >= 2
    requires |f.positions| > 0 && f.positions[0].status == OPEN
    requires |f.book.asks| > 0 && f.market in records
    ensures var r := MarketStep(p, f, records);
            var price := ExitPrice(f.positions[0].entryPrice, records[f.market].targetSigma, f.book.asks[0].price);
            && r.Done? && r.records == records
            && (|f.limitSellOrders| > 0 && f.limitSellOrders[0].price == price ==> r.actions == [])
            && (|f.limitSellOrders| == 0 || f.limitSellOrders[0].price != price ==>
                  && |r.actions| == 1 && r.actions[0].Create?
                  && r.actions[0].request.side == Sell && r.actions[0].request.postOnly
                  && r.actions[0].request.price == price
                  && r.actions[0].request.size == f.positions[0].sumOpen
                  && r.actions[0].request.cancelId == FirstId(f.limitSellOrders))
  {}

  /** A market step changes at most its own market's record. */
  lemma RecordsFrame(p: Params, f: MarketFeed, records: map<string, Record>)
    requires p.nAssets > 0 && GenuineSigma(p.numSamples, f)
    ensures var r := MarketStep(p, f, records);
            r.Done? ==>
              && (forall m :: m != f.market ==> (m in r.records <==> m in records))
              && (forall m :: m != f.market && m in records ==> r.records[m] == records[m])
              && (f.market in records ==> f.market in r.records)
  {}

  /** The sigma saved at an entry is the one a later exit in the same market
      reads back: the exit is priced from the entry's sigma. */
  lemma SigmaRoundTrip(p: Params, entry: MarketFeed, exit: MarketFeed, records: map<string, Record>)
    requires p.nAssets > 0 && GenuineSigma(p.numSamples, entry) && GenuineSigma(p.numSamples, exit)
    requires |entry.positions| == 0
    requires MarketStep(p, entry, records).Done? && |MarketStep(p, entry, records).actions| > 0
    requires exit.market == entry.market
    requires |Recent(exit.rows, p.numSamples)| >= 2
    requires |exit.positions| > 0 && exit.positions[0].status == OPEN && |exit.book.asks| > 0
    ensures var saved := MarketStep(p, entry, records).records;
            var r := MarketStep(p, exit, saved);
            var price := ExitPrice(exit.positions[0].entryPrice, entry.sigma, exit.book.asks[0].price);
            && r.Done?
            && (|r.actions| == 0 <==> |exit.limitSellOrders| > 0 && exit.limitSellOrders[0].price == price)
            && (|r.actions| > 0 ==> r.actions[0].request.price == price)
  {
    var saved := MarketStep(p, entry, records).records;
    assert saved == records[entry.market := Record(entry.sigma)];
    ExitStep(p, exit, saved);
  }

  /** A whole run's result: the orders sent, the records, and the fault that
      ended it early, if any. */
  datatype RunState = RunState(actions: seq<Action>, records: map<string, Record>, fault: Option<Fault>)

  /** One market's step applied to the run so far. */
  function Advance(prev: RunState, r: StepResult): RunState
  {
    match r
    case Done(a, recs) => RunState(prev.actions + a, recs, None)
    case Failed(e) => RunState(prev.actions, prev.records, Some(e))
  }

  /** The loop over markets from the state `start`, stopping at the first
      fault. */
  function Run(p: Params, feeds: seq<MarketFeed>, start: RunState): (r: RunState)
    requires p.nAssets > 0
    requires forall i :: 0 <= i < |feeds| ==> GenuineSigma(p.numSamples, feeds[i])
    ensures start.actions <= r.actions
    ensures start.fault.Some? ==> r == start
  {
    if feeds == [] then start
    else
      var init := feeds[..|feeds| - 1];
      assert forall i :: 0 <= i < |init| ==> init[i] == feeds[i];
      var prev := Run(p, init, start);
      if prev.fault.Some? then prev
      else Advance(prev, MarketStep(p, feeds[|feeds| - 1], prev.records))
  }

  /** A run issues at most one order per market and no cancels, and leaves the
      records of every market it did not visit as they were. */
  lemma {:induction false} RunProperties(p: Params, feeds: seq<MarketFeed>, records: map<string, Record>)
    requires p.nAssets > 0
    requires forall i :: 0 <= i < |feeds| ==> GenuineSigma(p.numSamples, feeds[i])
    ensures var r := Run(p, feeds, RunState([], records, None));
            && |r.actions| <= |feeds| && NoCancels(r.actions)
            && forall m :: (forall i :: 0 <= i < |feeds| ==> feeds[i].market != m) ==>
                 (m in r.records <==> m in records) && (m in records ==> r.records[m] == records[m])
  {
    if feeds != [] {
      var init := feeds[..|feeds| - 1];
      assert forall i :: 0 <= i < |init| ==> init[i] == feeds[i];
      RunProperties(p, init, records);
      var prev := Run(p, init, RunState([], records, None));
      if prev.fault.None? {
        var last := feeds[|feeds| - 1];
        AtMostOneOrderPerMarket(p, last, prev.records);
        RecordsFrame(p, last, prev.records);
      }
    }
  }

  // ---------------------------------------------------------------------------
  // The bot object
  // ---------------------------------------------------------------------------

  class Bot {
    const numSamples: nat
    const numStd: real
    /** account['equity'], read once at construction. */
    const equity: real
    var market: string
    var marketInfo: MarketInfo
    var priceHistory: seq<real>
    var latestLow: real
    var meanPrice: real
    var meanStd: real
    var orderbook: OrderBook
    var positions: seq<Position>
    /** The records file's content, market by market. */
    var records: map<string, Record>
    /** Every create_order call, in order. */
    var actions: seq<Action>

    constructor (numSamples: nat, numStd: real, equity: real, records: map<string, Record>)
      ensures this.numSamples == numSamples && this.numStd == numStd && this.equity == equity
      ensures this.records == records && actions == []
    {
      this.numSamples := numSamples;
      this.numStd := numStd;
      this.equity := equity;
      this.records := records;
      this.actions := [];
      this.market := "";
      this.marketInfo := MarketInfo(0.0, 0.0, 0.0, 0.0);
      this.priceHistory := [];
      this.latestLow := 0.0;
      this.meanPrice := 0.0;
      this.meanStd := 0.0;
      this.orderbook := OrderBook([], []);
      this.positions := [];
    }

    /** Bot() with the default arguments: twenty samples, two deviations. */
    constructor WithDefaults(equity: real, records: map<string, Record>)
      ensures numSamples == DefaultNumSamples && numStd == DefaultNumStd && this.equity == equity
      ensures this.records == records && actions == []
    {
      this.numSamples := DefaultNumSamples;
      this.numStd := DefaultNumStd;
      this.equity := equity;
      this.records := records;
      this.actions := [];
      this.market := "";
      this.marketInfo := MarketInfo(0.0, 0.0, 0.0, 0.0);
      this.priceHistory := [];
      this.latestLow := 0.0;
      this.meanPrice := 0.0;
      this.meanStd := 0.0;
      this.orderbook := OrderBook([], []);
      this.positions := [];
    }

    /** get_price_history with Coinbase's rows as argument; false when the
        slice is empty and `data[-1]` raises. */
    method GetPriceHistory(rows: seq<CandleRow>) returns (ok: bool)
      modifies this`latestLow, this`priceHistory
      ensures ok <==> |Recent(rows, numSamples)| > 0
      ensures ok ==> latestLow == LatestLow(Recent(rows, numSamples))
                     && priceHistory == Closes(Recent(rows, numSamples))
      ensures !ok ==> latestLow == old(latestLow) && priceHistory == old(priceHistory)
    {
      var data := Recent(rows, numSamples);
      if |data| == 0 {
        return false;
      }
      latestLow := data[|data| - 1].low;
      priceHistory := Closes(data);
      return true;
    }

    /** calculate_price_stats with the statistics library's deviation as
        argument; false when fewer than two samples make stdev raise. */
    method CalculatePriceStats(sigma: real) returns (ok: bool)
      requires |priceHistory| > 0
      requires |priceHistory| >= 2 ==> Stats.IsSampleStdev(sigma, priceHistory)
      modifies this`meanPrice, this`meanStd
      ensures meanPrice == Stats.Mean(priceHistory)
      ensures ok <==> |priceHistory| >= 2
      ensures ok ==> meanStd == sigma
      ensures !ok ==> meanStd == old(meanStd)
    {
      meanPrice := Stats.Mean(priceHistory);
      if |priceHistory| < 2 {
        return false;
      }
      meanStd := sigma;
      return true;
    }

    predicate CheckPriceAnomaly()
      reads this`latestLow, this`meanPrice, this`meanStd
    {
      Anomaly(latestLow, meanPrice, numStd, meanStd)
    }

    /** save_market_record: replace this market's record. */
    method SaveMarketRecord(data: Record)
      modifies this`records
      ensures records == old(records)[market := data]
    {
      records := records[market := data];
    }

    /** load_market_record: this market's record; None where the lookup
        raises KeyError. */
    method LoadMarketRecord() returns (r: Option<Record>)
      ensures r == if market in records then Some(records[market]) else None
    {
      if market in records {
        return Some(records[market]);
      }
      return None;
    }

    /** The entry branch once the anomaly is detected: bid, then save the
        sigma; an empty bid side raises first. */
    method Enter(f: MarketFeed, nAssets: nat) returns (fault: Option<Fault>)
      requires nAssets > 0
      requires market == f.market && marketInfo == f.info && orderbook == f.book
      modifies this`actions, this`records
      ensures |f.book.bids| == 0 ==> fault == Some(EmptyBook) && actions == old(actions) && records == old(records)
      ensures |f.book.bids| > 0 && !Sizable(f) ==>
                fault == Some(ZeroDivision) && actions == old(actions) && records == old(records)
      ensures |f.book.bids| > 0 && Sizable(f) ==>
                && fault == None
                && actions == old(actions) + [Create(EntryOrder(Params(numSamples, numStd, equity, nAssets), f, latestLow))]
                && records == old(records)[market := Record(meanStd)]
    {
      var buyOrder := if |f.limitBuyOrders| > 0 then Some(f.limitBuyOrders[0]) else None;
      if |orderbook.bids| == 0 {
        return Some(EmptyBook);
      }
      var price := Min(latestLow, orderbook.bids[0].price);
      var size := Min(equity / (nAssets as real), MaxNotional);
      if marketInfo.indexPrice == 0.0 {
        return Some(ZeroDivision);
      }
      size := size / marketInfo.indexPrice;
      if marketInfo.stepSize == 0.0 {
        return Some(ZeroDivision);
      }
      size := size - PyMod(size, marketInfo.stepSize);
      size := Max(size, marketInfo.minOrderSize);
      var request := OrderRequest(market, Buy, Limit, true, size, price, MakerFee, GoodTilTime, ThirtyDays, None);
      if buyOrder.Some? {
        request := request.(cancelId := Some(buyOrder.value.id));
      }
      actions := actions + [Create(request)];
      SaveMarketRecord(Record(meanStd));
      return None;
    }

    /** The exit branch for an open position: an empty ask side or a missing
        record raises; otherwise offer the position unless the resting sell
        already has the exit price. */
    method Exit(f: MarketFeed) returns (fault: Option<Fault>)
      requires market == f.market && orderbook == f.book && positions == f.positions && |f.positions| > 0
      modifies this`actions
      ensures |f.book.asks| == 0 ==> fault == Some(EmptyBook) && actions == old(actions)
      ensures |f.book.asks| > 0 && f.market !in records ==> fault == Some(MissingRecord) && actions == old(actions)
      ensures |f.book.asks| > 0 && f.market in records ==>
                var order := ExitOrder(f, records[f.market].targetSigma);
                && fault == None
                && actions == old(actions) +
                     (if |f.limitSellOrders| > 0 && f.limitSellOrders[0].price == order.price then [] else [Create(order)])
    {
      var sellOrder := if |f.limitSellOrders| > 0 then Some(f.limitSellOrders[0]) else None;
      var entryPrice := positions[0].entryPrice;
      if |orderbook.asks| == 0 {
        return Some(EmptyBook);
      }
      var askPrice := orderbook.asks[0].price;
      var record := LoadMarketRecord();
      if record.None? {
        return Some(MissingRecord);
      }
      var targetSigma := record.value.targetSigma;
      var price := Max(entryPrice + targetSigma, entryPrice * MinProfitRatio);
      if askPrice < entryPrice - (price - entryPrice) * StopFraction {
        price := askPrice;
      }
      var request := OrderRequest(market, Sell, Limit, true, positions[0].sumOpen, price,
                                  MakerFee, GoodTilTime, ThirtyDays, None);
      if sellOrder.Some? {
        request := request.(cancelId := Some(sellOrder.value.id));
      }
      if sellOrder.None? || price != sellOrder.value.price {
        actions := actions + [Create(request)];
      }
      return None;
    }

    /** One iteration of the market loop. */
    method RunMarket(f: MarketFeed, nAssets: nat) returns (fault: Option<Fault>)
      requires nAssets > 0 && GenuineSigma(numSamples, f)
      modifies this
      ensures RunState(actions, records, fault)
              == Advance(RunState(old(actions), old(records), None),
                         MarketStep(Params(numSamples, numStd, equity, nAssets), f, old(records)))
    {
      ghost var data := Recent(f.rows, numSamples);
      ghost var step := MarketStep(Params(numSamples, numStd, equity, nAssets), f, records);
      market := f.market;
      marketInfo := f.info;
      var ok := GetPriceHistory(f.rows);
      if !ok {
        assert step == Failed(NoCandles);
        return Some(NoCandles);
      }
      ok := CalculatePriceStats(f.sigma);
      if !ok {
        assert step == Failed(TooFewSamples);
        return Some(TooFewSamples);
      }
      orderbook := f.book;
      positions := f.positions;
      assert meanPrice == Stats.Mean(Closes(data)) && latestLow == LatestLow(data) && meanStd == f.sigma;
      if |positions| == 0 {
        if CheckPriceAnomaly() {
          fault := Enter(f, nAssets);
          return fault;
        }
      } else if positions[0].status == OPEN {
        fault := Exit(f);
        return fault;
      }
      assert step == Done([], records);
      return None;
    }

    /** run_meanreversion_strategy over the markets' feeds, in order; an
        exception ends the run, keeping what earlier markets sent. */
    method RunMeanReversionStrategy(feeds: seq<MarketFeed>) returns (fault: Option<Fault>)
      requires forall i :: 0 <= i < |feeds| ==> GenuineSigma(numSamples, feeds[i])
      modifies this
      ensures |feeds| > 0 ==>
                RunState(actions, records, fault)
                == Run(Params(numSamples, numStd, equity, |feeds|), feeds, RunState(old(actions), old(records), None))
      ensures |feeds| == 0 ==> actions == old(actions) && records == old(records) && fault == None
    {
      if |feeds| == 0 {
        return None;
      }
      ghost var p := Params(numSamples, numStd, equity, |feeds|);
      ghost var start := RunState(actions, records, None);
      fault := None;
      var i := 0;
      while i < |feeds|
        invariant 0 <= i <= |feeds|
        invariant RunState(actions, records, fault) == Run(p, feeds[..i], start)
        invariant fault == None
      {
        RunStep(p, feeds, i, start);
        fault := RunMarket(feeds[i], |feeds|);
        if fault.Some? {
          RunStopsAtFault(p, feeds, i + 1, start);
          return fault;
        }
        i := i + 1;
      }
      assert feeds[..|feeds|] == feeds;
    }
  }

  /** One more market extends a run that has not faulted by that market's
      step. */
  lemma RunStep(p: Params, feeds: seq<MarketFeed>, i: nat, start: RunState)
    requires p.nAssets > 0 && i < |feeds|
    requires forall k :: 0 <= k < |feeds| ==> GenuineSigma(p.numSamples, feeds[k])
    requires Run(p, feeds[..i], start).fault.None?
    ensures var prev := Run(p, feeds[..i], start);
            Run(p, feeds[..i + 1], start) == Advance(prev, MarketStep(p, feeds[i], prev.records))
  {
    assert feeds[..i + 1][..i] == feeds[..i];
    assert feeds[..i + 1][i] == feeds[i];
  }

  /** Once a prefix of the run has faulted, the rest of the markets change
      nothing. */
  lemma {:induction false} RunStopsAtFault(p: Params, feeds: seq<MarketFeed>, i: nat, start: RunState)
    requires p.nAssets > 0 && i <= |feeds|
    requires forall k :: 0 <= k < |feeds| ==> GenuineSigma(p.numSamples, feeds[k])
    requires Run(p, feeds[..i], start).fault.Some?
    ensures Run(p, feeds, start) == Run(p, feeds[..i], start)
    decreases |feeds| - i
  {
    if i < |feeds| {
      assert feeds[..i + 1][..i] == feeds[..i];
      RunStopsAtFault(p, feeds, i + 1, start);
    } else {
      assert feeds[..i] == feeds;
    }
  }
}
