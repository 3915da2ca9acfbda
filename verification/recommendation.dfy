/** The trading recommendation that the analyzers produce, the validator
    repairs and the trading agent reads: a dictionary in which every key
    may be absent, so every field is optional. */
module Recommendation {
  import opened Market
  import TA = TechnicalAnalysis

  /** `market_sentiment`; every reader treats a label other than
      "bullish" or "bearish" like "neutral". */
  datatype Sentiment = Bullish | Bearish | Neutral

  /** `recommended_action`; every reader tests only for "long" and "wait",
      so any other label behaves like "short". */
  datatype Action = Long | Short | Wait

  /** `analyzer`: which component produced the recommendation. */
  datatype AnalyzerTag = ClaudeEnhanced | EnhancedMock | FallbackAnalyzer

  /** The `entry_strategy` dictionary. */
  datatype EntryStrategy = EntryStrategy(
    price: Option<real>,
    condition: Option<string>,
    sizePercent: Option<real>)

  /** The `risk_management` dictionary. */
  datatype RiskPlan = RiskPlan(
    stopLoss: Option<real>,
    takeProfit1: Option<real>,
    takeProfit2: Option<real>,
    riskRewardRatio: Option<real>,
    maxLossPercent: Option<real>)

  /** `reasoning`: free text, or the mock analyzer's formatted sentence,
      kept as the values it is formatted from. */
  datatype Reasoning =
    | Text(text: string)
    | MockNarrative(sentiment: Sentiment, change24h: real, confidence: real)

  /** The descriptive blocks the mock and fallback analyzers add
      (`technical_summary`, `timeframe_analysis`, `key_levels`). A `None`
      label is the literal "neutral" the source writes in its place. */
  datatype Context = Context(
    rsiSignal: TA.RsiSignal,
    macdSignal: Option<TA.MacdSignal>,
    volumeConfirmation: TA.VolumeTrend,
    shortTermBias: Sentiment,
    mediumTermBias: Option<TA.OverallTrend>,
    trendAlignment: bool,
    immediateResistance: real,
    immediateSupport: real,
    vwapLevel: real)

  /** The analysis dictionary. `timestamp` is the moment it was stamped. */
  datatype Analysis = Analysis(
    sentiment: Option<Sentiment>,
    confidence: Option<real>,
    action: Option<Action>,
    entry: Option<EntryStrategy>,
    risk: Option<RiskPlan>,
    reasoning: Option<Reasoning>,
    context: Option<Context>,
    timestamp: Option<int>,
    analyzer: Option<AnalyzerTag>,
    symbol: Option<string>)

  /** The dictionary with no key at all. */
  const EmptyAnalysis := Analysis(None, None, None, None, None, None, None, None, None, None)

  const NoEntryStrategy := EntryStrategy(None, None, None)

  const NoRiskPlan := RiskPlan(None, None, None, None, None)

  /** The price every reader uses when the market data has none. */
  function CurrentPrice(market: MarketData): real
  {
    market.currentPrice.GetOr(50000.0)
  }
}
