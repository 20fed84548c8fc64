/** The Bollinger strategy's configuration and its three signals, the
    predicates of the volume/RSI variant, and the table that selects a
    strategy by name. Each signal is a single comparison over explicit
    inputs: the live ticker (the mid-market price), the closing-price mean and
    standard deviation, and the entry price of the strategy's side. */
module Strategies {
  import opened Types
  import Sizing

  /** The side a strategy instance trades: 'long' or 'short'. */
  datatype StrategySide = LongSide | ShortSide

  /** BollingerStrategy's own parameters. */
  datatype BollingerConfig = BollingerConfig(
    numStd: real,
    takeProfitMultiplier: real,
    stopLossMultiplier: real,
    short: bool)

  /** The defaults of BollingerStrategy.__init__. */
  const DefaultBollinger: BollingerConfig := BollingerConfig(3.0, 1.001, 0.98, false)

  function SideOf(cfg: BollingerConfig): StrategySide
  {
    if cfg.short then ShortSide else LongSide
  }

  /** The entry price of the first position on the strategy's side, when it
      holds one; otherwise the attribute is never set (None). */
  function EntryPrice(cfg: BollingerConfig, long: seq<Position>, short: seq<Position>): (p: Option<real>)
    ensures var own := if cfg.short then short else long;
            && (p.Some? <==> |own| > 0)
            && (p.Some? ==> p.value == own[0].entryPrice)
  {
    var own := if SideOf(cfg) == ShortSide then short else long;
    if |own| > 0 then Some(own[0].entryPrice) else None
  }

  /** Python truthiness of the entry price: set and non-zero. */
  predicate Truthy(p: Option<real>)
  {
    p.Some? && p.value != 0.0
  }

  /** Entry: the ticker is below the lower band mean - numStd * std, so below
      the mean itself whenever the band lies under it. */
  function EntrySignal(cfg: BollingerConfig, ticker: real, meanPrice: real, meanStd: real): (b: bool)
    ensures cfg.numStd >= 0.0 && meanStd >= 0.0 && b ==> ticker < meanPrice
    ensures cfg.numStd == 0.0 || meanStd == 0.0 ==> (b <==> ticker < meanPrice)
  {

    ticker < meanPrice - cfg.numStd * meanStd
  }

  /** Exit (take profit): the ticker is above entry * take-profit multiplier;
      false (None in the source) without a truthy entry price. */
  function ExitSignal(cfg: BollingerConfig, entry: Option<real>, ticker: real): (b: bool)
    ensures b ==> Truthy(entry)
    ensures entry.Some? && entry.value > 0.0 && cfg.takeProfitMultiplier >= 1.0 && b ==> entry.value < ticker
  {

    Truthy(entry) && entry.value * cfg.takeProfitMultiplier < ticker
  }

  /** Stop: the ticker is below entry * stop-loss multiplier; false (None in
      the source) without a truthy entry price. */
  function StopSignal(cfg: BollingerConfig, entry: Option<real>, ticker: real): (b: bool)
    ensures b ==> Truthy(entry)
    ensures entry.Some? && entry.value > 0.0 && cfg.stopLossMultiplier <= 1.0 && b ==> ticker < entry.value
  {

    Truthy(entry) && ticker < entry.value * cfg.stopLossMultiplier
  }

  /** With a positive entry price and a stop multiplier not above the
      take-profit multiplier (0.98 <= 1.001 by default), exit and stop never
      fire together. */
  lemma ExitAndStopExclusive(cfg: BollingerConfig, entry: Option<real>, ticker: real)
    requires entry.Some? && entry.value > 0.0
    requires cfg.stopLossMultiplier <= cfg.takeProfitMultiplier
    ensures !(ExitSignal(cfg, entry, ticker) && StopSignal(cfg, entry, ticker))
  {
    Sizing.MulLeq(cfg.stopLossMultiplier, cfg.takeProfitMultiplier, entry.value);
  }

  lemma DefaultMultipliersOrdered()
    ensures DefaultBollinger.stopLossMultiplier <= DefaultBollinger.takeProfitMultiplier
    ensures SideOf(DefaultBollinger) == LongSide
  {}

  /** A long position entered at 2000 with a 0.8 stop multiplier and the
      ticker at 1598 (below 1600) stops out and does not take profit. */
  lemma StopScenario()
    ensures var cfg := BollingerConfig(3.0, 1.001, 0.8, false);
            StopSignal(cfg, Some(2000.0), 1598.0) && !ExitSignal(cfg, Some(2000.0), 1598.0)
  {}

  // ---------------------------------------------------------------------------
  // VolumeRSIBollingerStrategy: the same comparisons over explicit arguments
  // ---------------------------------------------------------------------------

  /** Entry: the price is below the lower band, so below the mean whenever the
      band lies under it. */
  function VolumeEntrySignal(numStd: real, meanPrice: real, meanStd: real, price: real): (b: bool)
    ensures numStd >= 0.0 && meanStd >= 0.0 && b ==> price < meanPrice
  {
    price < meanPrice - numStd * meanStd
  }

  /** Take profit: the price is above entry * multiplier, so above the entry
      price for a positive entry and a multiplier of at least 1. */
  function TakeProfitSignal(takeProfitMultiplier: real, entryPrice: real, price: real): (b: bool)
    ensures entryPrice > 0.0 && takeProfitMultiplier >= 1.0 && b ==> entryPrice < price
  {
    entryPrice * takeProfitMultiplier < price
  }

  /** Stop: the price is below entry * multiplier, so below the entry price
      for a positive entry and a multiplier of at most 1. */
  function VolumeStopSignal(stopLossMultiplier: real, entryPrice: real, price: real): (b: bool)
    ensures entryPrice > 0.0 && stopLossMultiplier <= 1.0 && b ==> price < entryPrice
  {
    price < entryPrice * stopLossMultiplier
  }

  /** The volume/RSI predicates agree with the Bollinger signals once the entry
      price is truthy; the entry predicates agree everywhere. */
  lemma VolumePredicatesMatchBollinger(cfg: BollingerConfig, e: real, meanPrice: real, meanStd: real, price: real)
    requires e != 0.0
    ensures VolumeEntrySignal(cfg.numStd, meanPrice, meanStd, price) == EntrySignal(cfg, price, meanPrice, meanStd)
    ensures TakeProfitSignal(cfg.takeProfitMultiplier, e, price) == ExitSignal(cfg, Some(e), price)
    ensures VolumeStopSignal(cfg.stopLossMultiplier, e, price) == StopSignal(cfg, Some(e), price)
  {}

  // ---------------------------------------------------------------------------
  // Strategy table
  // ---------------------------------------------------------------------------

  datatype StrategyKind = Bollinger | VolumeRsiBollinger

  /** STRATEGIES[name]: a missing name is a KeyError (None). */
  function StrategyFor(name: string): (k: Option<StrategyKind>)
    ensures k.Some? <==> name == "bollinger" || name == "volume_rsi"
    ensures k == Some(Bollinger) <==> name == "bollinger"
  {
    if name == "bollinger" then Some(Bollinger)
    else if name == "volume_rsi" then Some(VolumeRsiBollinger)
    else None
  }
}
