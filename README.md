# dYdX trading bot: order-decision core in Dafny

This project models the part of the dYdX trading bot that decides which
orders to send. The bot reads one snapshot of exchange state per market:
account equity and open positions, the order book, resting buy and sell
orders, and market metadata. From that snapshot it decides which
`cancel_order` and `create_order` calls to make. The exchange client is
replaced by an action log (`seq<Action>`, with `Cancel(id)` and
`Create(request)`). Each order-sending method appends to that log, and
what it appends is proved equal to a specification function of the
snapshot; the lemmas state what those functions promise.

Modules, one per source file, and three shared helpers (`Types`, `Sizing`
and `Stats`) that no single source file owns:

- `Types` (types.dfy): exchange values, the action log, the mid price.
- `Sizing` (sizing.dfy): Python's float `%`, step truncation, order sizing.
- `Stats` (stats.dfy): mean and sample variance. They are used by
  `statistics.mean/stdev` and pandas' rolling mean and std.
- `Indicators` (indicators.dfy): Bollinger bands and RSI over reals.
- `Strategies` (strategies.dfy): the Bollinger strategy's side, entry price
  and signals, the volume/RSI predicates, and the strategy table.
- `TradingSystem` (system.dfy): the `System` class, which is the order engine
  for one market.
- `Operations` (operations.dfy): the `run_strategy` dispatch.
- `MeanReversion` (app.dfy): the `Bot` class and the per-market body of
  `run_meanreversion_strategy`.

Prices, sizes and equity are exact `real`s. pandas' NaN is `None`. Python
exceptions that end a run are a `completed` flag (stop-loss) or a `Fault`
value (mean-reversion bot).

### Behaviour of the code that may not be intended

- **Position caps.** The entry guards use strict `>`: `len(openPositions) > 5`
  and `side count > 3` (system.py:156, 161, 215, 222). A cap that blocks
  once the count reaches it would use `>=`; the code lets a sixth open
  position and a fourth position per side through.
- **Stop priority.** `run_strategy` runs the entry, or else the exit, and then
  the stop whenever its signal holds (operations.py:7-12). Nothing suppresses
  the exit when the stop fires, although a stop-loss would be expected to
  take priority over the exit. In the model, exit and stop are exclusive
  only through the multipliers (`Strategies.ExitAndStopExclusive`,
  `Operations.NeverExitAndStop`).
- **First Bollinger row.** pandas' sample deviation of a one-value window is
  NaN, so row 0's bands, and every row when the length is 1, are `None`,
  not bands of zero width around the average.
- **Exceptions end the run.** In the mean-reversion bot an exception in one
  market ends the whole run (app.py:134), instead of skipping only that
  market. `MeanReversion.Run` stops at the first fault.
- **Unreachable strategy paths.** As written, the strategy layer cannot run,
  for several reasons:
  - `STRATEGIES` names `VolumeRSIStrategy`, which does not exist
    (strategies.py:61).
  - `price_ticker` and an unset `entry_price` are read.
  - `execute_entry`, `execute_exit` and `execute_stoploss` are not defined
    on `System`.

  The model gives the intended meaning:
  - the table maps `volume_rsi` to `VolumeRSIBollingerStrategy`;
  - the ticker is `System.ticker`, the mid price;
  - a missing entry price makes exit and stop false;
  - `execute_entry` / `execute_exit` / `execute_stoploss` call the
    long-side or short-side method, by the strategy's `short` flag.

  `VolumeRSIBollingerStrategy`'s signals take arguments that `run_strategy`
  does not pass, so that path ends with `SignalsNeedArguments`.

## Model

| member | source | states |
|---|---|---|
| Types.MidPrice | system.py:140-143 | the mid price bid + (ask - bid) * .5 equals (bid + ask) / 2 and lies between the best bid and the best ask whenever bid <= ask |
| Types.Cancels | system.py:145-151 | one cancel per resting order, in order, each carrying that order's id |
| Sizing.PyMod | system.py:166 | Python's `size % step` has the divisor's sign: it lies in [0, step) for a positive step and in (step, 0] for a negative one; a zero step is excluded, as it raises |
| Sizing.StepFloorBounds | system.py:166 | `size - size % step` is a whole number of steps, not above the raw size and less than one step below it |
| Sizing.StepFloorGreatest | system.py:166 | the truncated size is the greatest whole number of steps not above the raw size |
| Sizing.StepFloorMonotone | system.py:166 | truncating a larger size never gives a smaller result |
| Sizing.OrderSize | system.py:165-169 | the order size is at least minOrderSize, and is either minOrderSize or the step-truncated notional / indexPrice |
| Sizing.OrderSizeStepAligned | system.py:165-169 | before the minimum floor the size is a step multiple within one step below notional / indexPrice; the final size is the max of that and the minimum |
| Sizing.OrderSizeMonotone | system.py:165-169 | a larger notional never gives a smaller order |
| Sizing.RiskNotional | system.py:164 | min(equity * ratio, cap) is at most both and equal to one of them |
| Sizing.RiskSizeMonotoneInEquity | system.py:163-169 | with a non-negative ratio, more equity never gives a smaller entry order |
| Sizing.SizingExample | system.py:163-169 | equity 10000, ratio 0.1, index price 2000, step 0.001, minimum 0.01 give size 0.5 in exact arithmetic |
| Stats.SumBounds | system.py:97 | the sum of n samples in [lo, hi] lies in [n * lo, n * hi] |
| Stats.MeanBounds | system.py:97 | the mean lies between any lower and upper bound of the samples |
| Stats.SampleVarianceNonnegative | system.py:98 | the sample variance is never negative |
| Stats.ConstantSeriesStats | system.py:96-98 | a constant series has that constant as mean, variance 0 and deviation 0 |
| Indicators.Window | indicators.py:21 | the rolling window at i holds the last min(length, i + 1) values ending at i, in order |
| Indicators.BandAt | indicators.py:21-24 | a row's bands are both undefined or both defined, undefined exactly at row 0 or when length is 1, and symmetric around the average |
| Indicators.BollingerIndicator | indicators.py:19-25 | building the bands raises KeyError exactly when there are no candles (the DataFrame has no source column) and ValueError exactly for a zero window length on candles; otherwise one record per candle, row i being the bands of its window |
| Indicators.Bollinger | indicators.py:21-25 | the columns computed for a positive window length: one output record per candle |
| Indicators.BollingerRows | indicators.py:21-25 | sma[i] is the mean of the last min(length, i + 1) values; the bands are undefined exactly at row 0 or when length is 1; otherwise bolu = sma + num_std * std and boll = sma - num_std * std, std being the window's sample deviation (non-negative, its square the sample variance) |
| Indicators.BandsOrdered | indicators.py:22-24 | with numStdev >= 0 and a genuine sample deviation, boll <= sma <= bolu, symmetric around sma |
| Indicators.SmaWithinBounds | indicators.py:21 | the moving average stays within any bounds of the source values |
| Indicators.FlatSeriesBands | indicators.py:21-24 | on a flat series every row after the first is (c, c, c) |
| Indicators.Deltas | indicators.py:43 | diff() without its leading NaN has one value fewer than the closes, value j being close[j + 1] - close[j] |
| Indicators.GainLossSplit | indicators.py:44-45 | up = max(delta, 0) and down = max(-delta, 0) are non-negative, at most one is non-zero, and up - down = delta |
| Indicators.GainsLossesNonnegative | indicators.py:44-45 | every gain and every loss is non-negative |
| Indicators.Alpha | indicators.py:46-47 | alpha = 1 / (1 + com) lies in (0, 1] |
| Indicators.Ewma | indicators.py:46-47 | the average has one value per input value |
| Indicators.EwmaRecurrence | indicators.py:46-47 | e[0] = v[0] and e[t] = (1 - alpha) e[t - 1] + alpha v[t] |
| Indicators.EwmaLowerBound | indicators.py:46-47 | the averages never fall below a lower bound of their inputs (so gain and loss averages are >= 0) |
| Indicators.EwmaUpperBound | indicators.py:46-47 | the averages never rise above an upper bound of their inputs |
| Indicators.EwmaStrictLowerBound | indicators.py:46-47 | averages of inputs strictly above a bound stay strictly above it |
| Indicators.RsiIndicator | indicators.py:41-49 | building the RSI raises KeyError exactly when there are no candles; otherwise one value per candle, the first undefined |
| Indicators.Rsi | indicators.py:43-49 | the RSI column computed from the candles: one value per candle, the first undefined |
| Indicators.RsiOf | indicators.py:48-49 | 100 - 100 / (1 + up / down) with float division: undefined (0/0) exactly when both averages are 0, 100 when only the loss average is 0, otherwise in [0, 100) |
| Indicators.RsiOfRange | indicators.py:48-49 | with up >= 0 and down > 0, 100 - 100 / (1 + up / down) lies in [0, 100) |
| Indicators.RsiRange | indicators.py:41-49 | every defined RSI value lies in [0, 100], and below 100 whenever the loss average is positive |
| Indicators.RsiOfRisingSeries | indicators.py:43-49 | strictly rising closes give RSI 100 from the second candle on |
| Indicators.RsiRisingExample | indicators.py:41-49 | fifteen rising closes with length 14 end at RSI 100 |
| Strategies.EntryPrice | strategies.py:17-21 | the entry price is set exactly when the strategy's side holds a position, and is then that side's first position's entry price |
| Strategies.EntrySignal | strategies.py:23-24 | entry when the ticker is below mean - num_std * std; such a ticker is below the mean whenever num_std and std are non-negative, and is exactly "below the mean" when either is 0 |
| Strategies.ExitSignal | strategies.py:26-28 | exit needs a set, non-zero entry price (None otherwise); with a positive entry and a multiplier of at least 1 it fires only above the entry price |
| Strategies.StopSignal | strategies.py:30-32 | the stop needs a set, non-zero entry price; with a positive entry and a multiplier of at most 1 it fires only below the entry price |
| Strategies.ExitAndStopExclusive | strategies.py:26-32 | with a positive entry price and stop multiplier <= take-profit multiplier, exit and stop never both hold |
| Strategies.DefaultMultipliersOrdered | strategies.py:5-18 | the defaults 0.98 <= 1.001 satisfy that ordering, and the default side is long |
| Strategies.StopScenario | strategies.py:26-32 | entry 2000, stop multiplier 0.8, ticker 1598: the stop fires and the exit does not |
| Strategies.VolumeEntrySignal | strategies.py:49-50 | the volume/RSI entry: the price is below the lower band, so below the mean for non-negative num_std and std |
| Strategies.TakeProfitSignal | strategies.py:52-53 | take profit fires only above a positive entry price when the multiplier is at least 1 |
| Strategies.VolumeStopSignal | strategies.py:55-56 | the stop fires only below a positive entry price when the multiplier is at most 1 |
| Strategies.VolumePredicatesMatchBollinger | strategies.py:49-56 | the volume/RSI predicates are the Bollinger comparisons with price and entry price as arguments |
| Strategies.StrategyFor | strategies.py:59-62 | the table resolves exactly 'bollinger' and 'volume_rsi'; any other name is a KeyError |
| TradingSystem.PositionsOnSide | system.py:135-138 | the side filter keeps only positions of that side and never grows the list |
| TradingSystem.PositionsOnSideMembership | system.py:136-137 | a position is kept iff it is in the input and on the requested side |
| TradingSystem.PositionsOnSideAppend | system.py:136-137 | filtering commutes with concatenation, so kept positions keep their order |
| TradingSystem.SplitCountsEveryPosition | system.py:135-138 | the long and short lists together never exceed the input, and cover it when every side is LONG or SHORT |
| TradingSystem.StopOrders | system.py:280-294 | one market order per position, in order, for that position's open size |
| TradingSystem.Repeg | system.py:319-353 | every re-peg action creates a post-only limit on the loop's side (BUY for resting buys, SELL for resting sells) at the best price, cancelling a stale resting order that it replaces |
| TradingSystem.Stale | system.py:323 | every stale order is a resting order whose price differs from the best price |
| TradingSystem.StaleMembership | system.py:321-323 | an order is stale iff it rests and its price differs from the best price |
| TradingSystem.StaleAppend | system.py:321-323 | the stale orders of a concatenation are those of each part in turn, so resting order is kept |
| TradingSystem.LongEntryActions | system.py:153-183 | the long entry emits nothing exactly when blocked, otherwise one post-only buy and nothing else |
| TradingSystem.ShortEntryActions | system.py:212-244 | the short entry emits nothing exactly when blocked, otherwise one post-only sell and nothing else |
| TradingSystem.LongExitActions | system.py:185-210 | the long exit emits nothing exactly without a long position or with a resting sell; otherwise one cancel per resting buy, in order, then one create |
| TradingSystem.ShortExitActions | system.py:246-271 | the short exit emits nothing exactly without a short position or with a resting buy; otherwise a single create |
| TradingSystem.LongStopLoss | system.py:273-294 | fails exactly when a long position exists and the bid side has at most 10 levels; emits a cancel per resting order, then, when it completes, one market sell per long position |
| TradingSystem.ShortStopLoss | system.py:296-317 | fails exactly when a short position exists and the ask side has at most 10 levels; emits a cancel per resting order, then, when it completes, one market buy per short position |
| TradingSystem.UpdateActions | system.py:319-353 | at most one action per resting order, each a post-only create that cancels an old order, buys at the best bid and sells at the best ask |
| TradingSystem.LongEntryGuard | system.py:153-162 | the long entry emits nothing iff a long position exists, a buy rests, open positions > 5 or long positions > 3 |
| TradingSystem.ShortEntryGuard | system.py:212-223 | the short entry mirrors the long guard |
| TradingSystem.LongEntryIsOneBuy | system.py:153-183 | an unblocked long entry is exactly one post-only buy limit at bids[0], sized as the entry size (>= minimum), with no cancels |
| TradingSystem.ShortEntryIsOneSell | system.py:212-244 | an unblocked short entry is exactly one post-only sell limit at asks[0], with no cancels |
| TradingSystem.EntrySizeProperties | system.py:163-169 | the pre-floor size is a step multiple within a step below the risk notional / index price; the size is at least the minimum and grows with equity |
| TradingSystem.LongExitShape | system.py:185-210 | the long exit cancels each resting buy, then sells the open size at asks[0], or for dust buys the minimum at bids[0]; nothing without a position or with a resting sell |
| TradingSystem.ShortExitShape | system.py:246-271 | the short exit is one order with no cancels (its cancel_buy_orders is a no-op), the mirrored dust rule included |
| TradingSystem.LongStopLossShape | system.py:273-294 | the long stop cancels every buy then every sell, then sends one market fill-or-kill non-post-only sell per long position at bids[10]; it fails exactly when a position exists and the book has <= 10 bid levels |
| TradingSystem.ShortStopLossShape | system.py:296-317 | the short stop mirrors this with buys at asks[10] |
| TradingSystem.RepegReplacesEachStaleOrder | system.py:319-353 | re-pegging emits exactly one replacement per stale order, in order, on the loop's side, with the old order's size and cancel_id = the old id |
| TradingSystem.RepegAtBestIsEmpty | system.py:322-323 | orders already at the best price get no action |
| TradingSystem.UpdateIsIdempotent | system.py:319-353 | after the replacements apply, a second update emits nothing |
| TradingSystem.RepegExample | system.py:319-336 | a buy resting at 100 with best bid 101 yields one replacement at 101, same size, cancelling the old order |
| TradingSystem.System.constructor | system.py:22-66 | the engine holds the fetched snapshot, the positions split by side, the mean of the closes, the given deviation and the mid price as ticker |
| TradingSystem.System.GetPositions | system.py:130-138 | the long and short lists are the fetched positions filtered by side |
| TradingSystem.System.CancelBuyOrders | system.py:145-147 | appends one cancel per resting buy, in order |
| TradingSystem.System.CancelSellOrders | system.py:149-151 | appends one cancel per resting sell, in order |
| TradingSystem.System.ComputeEntrySize | system.py:163-169 | the step-by-step size computation equals the entry size |
| TradingSystem.System.ExecuteLongEntry | system.py:153-183 | appends exactly the long entry's actions |
| TradingSystem.System.ExecuteShortEntry | system.py:212-244 | appends exactly the short entry's actions |
| TradingSystem.System.ExecuteLongExit | system.py:185-210 | appends exactly the long exit's actions, the dust flip applied as an update of the order |
| TradingSystem.System.ExecuteShortExit | system.py:246-271 | appends exactly the short exit's actions |
| TradingSystem.System.ExecuteLongStoploss | system.py:273-294 | appends the long stop's actions and reports whether it ran to the end |
| TradingSystem.System.ExecuteShortStoploss | system.py:296-317 | appends the short stop's actions and reports whether it ran to the end |
| TradingSystem.System.SendStopOrders | system.py:280-294 | appends one stop order per position at the eleventh book level; reports failure exactly when a position exists and that level is missing |
| TradingSystem.System.RepegOrders | system.py:321-336 | appends the replacements on the given side for the given orders |
| TradingSystem.System.UpdateLimitOrders | system.py:319-353 | appends the buy replacements, then the sell replacements |
| Operations.Dispatch | operations.py:7-12 | entry runs iff its signal holds; exit iff not entry and its signal holds; stop iff its signal holds and always last; never entry and exit together; no step twice |
| Operations.FlatStrategyOnlyEnters | operations.py:7-12 | with no position on its side, a strategy runs at most its entry |
| Operations.NeverExitAndStop | operations.py:9-12 | with positive entry prices and stop multiplier <= take-profit multiplier, no run both exits and stops |
| Operations.EntryThenStop | operations.py:7-12 | on either side, an entry and a stop in one call emit that side's entry actions, then its stop-loss actions, and end as the stop-loss ends |
| Operations.RunStep | operations.py:8-12 | one execute_* call appends that step's actions for the strategy's side |
| Operations.RunPlan | operations.py:7-12 | the chosen steps run in order and stop at the first that raises |
| Operations.RunStrategy | operations.py:4-12 | an unknown name or the volume/RSI strategy sends nothing; the Bollinger strategy runs the dispatched steps on its side |
| MeanReversion.Recent | app.py:76 | `rows[:n][::-1]` holds the newest min(n, len) rows, oldest first |
| MeanReversion.Closes | app.py:78 | the price history is field 4 (close) of every row |
| MeanReversion.PriceHistoryShape | app.py:73-78 | the latest low is the low of the response's first row, and the history is the closes of the first n rows, reversed |
| MeanReversion.Anomaly | app.py:84-85 | the latest low is below mean - num_std * sigma; so below the mean for non-negative num_std and sigma, and exactly below the mean when either is 0 |
| MeanReversion.AnomalyIsBelowMean | app.py:80-85 | with sigma the sample deviation of the history and num_std >= 0, an anomalous latest low lies below the mean |
| MeanReversion.AnomalyIsBollingerEntry | app.py:84-85 | the anomaly test is latest_low < mean - num_std * sigma, the Bollinger entry signal at the latest low |
| MeanReversion.FirstId | app.py:158-160 | cancel_id is present iff an order rests, and is then the first order's id |
| MeanReversion.TakeProfit | app.py:204-207 | the take-profit is at least entry + sigma and at least entry * 1.0075, and equals one of them |
| MeanReversion.StopCrossed | app.py:209 | the stop threshold lies below the entry by at least 0.67 sigma and at least 0.67 of 0.75% of the entry price; with a positive entry and sigma >= 0 it is only crossed below the entry price |
| MeanReversion.ExitPrice | app.py:204-210 | the exit price is the ask or the take-profit; uncrossed, it is at least entry + sigma and entry * 1.0075 |
| MeanReversion.ExitPriceProperties | app.py:204-210 | the exit price is the ask, below entry, exactly when ask < entry - 0.67 * (take-profit - entry); otherwise it is the take-profit, above entry |
| MeanReversion.MarketStep | app.py:134-230 | one market's iteration faults in the source's order: NoCandles exactly with no rows, TooFewSamples exactly with one sample, then EmptyBook exactly when the side it needs (bids to enter on an anomaly, asks to exit an open position) is empty, ZeroDivision exactly on an anomaly with a bid and a zero index price or step, MissingRecord exactly for an open position with an ask and no saved record |
| MeanReversion.AtMostOneOrderPerMarket | app.py:149-230 | each market gets at most one create and no cancel |
| MeanReversion.EntryStep | app.py:149-186 | an order while flat means an anomaly and one post-only buy at min(latest low, best bid) of size max(step-truncated min(equity / assets, 10000) / index price, minimum), replacing the resting buy, with the sigma saved; no anomaly means nothing; an anomaly faults exactly on an empty bid side (IndexError) or a zero index price or step (ZeroDivisionError) |
| MeanReversion.ExitStep | app.py:188-230 | an open position is offered in full at the exit price from the recorded sigma, replacing the resting sell, unless that sell already has that price |
| MeanReversion.RecordsFrame | app.py:58-62 | a market step leaves every other market's record unchanged |
| MeanReversion.SigmaRoundTrip | app.py:186-202 | the sigma saved at an entry is the one a later exit in that market prices from |
| MeanReversion.Run | app.py:133-230 | a run only appends to the orders it starts with, and a run that has already faulted stays as it is |
| MeanReversion.RunProperties | app.py:133-230 | a run sends at most one order per market, no cancels, and keeps the records of markets it does not visit |
| MeanReversion.Bot.constructor | app.py:24-47 | the bot starts with its parameters, the given records and no orders sent |
| MeanReversion.Bot.WithDefaults | app.py:24 | the default arguments give 20 samples and 2 deviations |
| MeanReversion.Bot.GetPriceHistory | app.py:73-78 | sets the latest low and the closes of the recent rows; fails iff that slice is empty |
| MeanReversion.Bot.CalculatePriceStats | app.py:80-82 | sets the mean; fails iff fewer than two samples, leaving the deviation as it was, else sets the deviation to the history's sample deviation |
| MeanReversion.Bot.SaveMarketRecord | app.py:58-62 | replaces only the current market's record |
| MeanReversion.Bot.LoadMarketRecord | app.py:54-56 | returns the current market's record, or None where the lookup raises |
| MeanReversion.Bot.Enter | app.py:149-186 | with a bid and a non-zero index price and step, sends exactly the entry order and saves the sigma under this market; with no bid, or a zero divisor, faults and changes nothing |
| MeanReversion.Bot.Exit | app.py:188-230 | with an ask and a record, sends the exit order from the recorded sigma unless the resting sell already has that price; a missing ask or record faults and sends nothing |
| MeanReversion.Bot.RunMarket | app.py:134-230 | one market's iteration sends exactly its step's orders and records, or faults before sending anything |
| MeanReversion.Bot.RunMeanReversionStrategy | app.py:133-230 | the loop over markets equals the run specification, stopping at the first fault |

## Left out

- Exchange and Coinbase I/O: the dYdX client, `requests`, account and
  position queries, `create_order` / `cancel_order`. The fetched data are
  arguments, and the calls are the action log. A rejected order or a failing
  cancel is not modelled.
- Expirations: `time.time() + 3600` / `+ 2592000` are kept as their offsets
  (`ttl`). The `position_id` and the `limit_fee` strings are not modelled;
  the fee is a constant.
- `round(..., step_exp)`, `round(..., tick_exp)`, `decimal` exponent
  extraction and `str()`: sizes and prices are exact reals.
- Sizing.OrderSize: computed over exact reals, not binary floats. In double
  precision `size % step` for a step such as 0.001 can leave the truncation a
  whole step below the exact multiple (Sizing.SizingExample's 0.5 comes out
  as 0.499), and the later `round` does not restore it.
- MeanReversion.ExitStep: the exit price is compared with the resting sell's
  price before rounding to the tick size (app.py:211, 228). A price that
  differs only below tick precision counts as changed here.
- `statistics.stdev` and pandas' rolling `std`: reals have no square root. The
  deviation is an argument constrained to be a non-negative root of the
  sample variance: `Stats.IsSampleStdev` for the System, and for the bot's
  feeds through `MeanReversion.GenuineSigma`; `Indicators.IsSampleStdevFunction`
  for the rolling deviation.
- pandas NaN and inf propagation beyond the two cases modelled: the undefined
  first Bollinger bands and first RSI value, and 0/0 in RSI.
- TradingSystem.System.constructor: requires a positive step size and index
  price, a non-empty book on both sides and at least two closes. With fewer
  closes `statistics.mean` / `stdev` raise StatisticsError while the System
  is built (system.py:97-98), and an empty book raises IndexError for the
  mid price; a zero step or index price raises ZeroDivisionError only later,
  in the entry sizing, and negative exchange metadata is not modelled for the
  System.
- `System.get_candles`: the candle order does not matter for the mean and
  deviation, so the constructor takes the closes directly.
- `System.load_all_histories`, `load_market_history` and
  `save_market_history`: they are unused, and `histories_fname` is never set
  (system.py:69).
- The `print` at system.py:217.
- Bot.get_buy_orders, Bot.get_sell_orders and Bot.get_latest_candle: their
  results are not read by `run_meanreversion_strategy`.
- Bot.calculate_mid_market_price (app.py:124-127): not called by the
  strategy. Its expression is the same as `Types.MidPrice`.
- `load_all_records` / the records file: the file is a map held by the bot. A
  missing file is not modelled; a missing market is the `MissingRecord` fault.
- Bot.get_market_info: a market missing from the response (KeyError) is not
  modelled.
- MeanReversion.Bot.RunMeanReversionStrategy: the market names are taken
  from the feeds rather than built from `BASE_ASSETS`. The number of assets
  is the number of feeds.
- tasks.py (Celery scheduling) and the module-level loop of operations.py
  (configuration import, and the shared `PARAMETERS` dictionary mutated per
  market).
