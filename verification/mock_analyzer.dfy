/** The deterministic recommenders used when the language model is not
    available: a signal-counting mock and a fixed conservative fallback. */
module MockAnalyzer {
  import opened Market
  import opened Recommendation
  import TA = TechnicalAnalysis

  /** The signals that vote for a long position: RSI above 60, a bullish
      or strengthening MACD, price in the bottom 30% of the bands, rising
      volume on a positive day, and (counting twice) a bullish
      multi-timeframe trend. */
  function BullishSignals(t: TA.Snapshot, change24h: real): (n: nat)
    ensures n <= 6
  {
    (if t.rsi > 60.0 then 1 else 0)
    + (if t.macdSignal == TA.MacdBullish || t.macdSignal == TA.Strengthening then 1 else 0)
    + (if t.bands.position > 0.7 then 0 else if t.bands.position < 0.3 then 1 else 0)
    + (if t.volume.trend == TA.Increasing && change24h > 0.0 then 1 else 0)
    + (if t.multiTimeframe.overall == TA.OverallBullish then 2 else 0)
  }

  /** The signals that vote for a short position, mirroring the above. */
  function BearishSignals(t: TA.Snapshot, change24h: real): (n: nat)
    ensures n <= 6
  {
    (if t.rsi > 60.0 then 0 else if t.rsi < 40.0 then 1 else 0)
    + (if t.macdSignal == TA.MacdBearish || t.macdSignal == TA.Weakening then 1 else 0)
    + (if t.bands.position > 0.7 then 1 else 0)
    + (if t.volume.trend == TA.Increasing && change24h > 0.0 then 0
       else if t.volume.trend == TA.Increasing && change24h < 0.0 then 1 else 0)
    + (if t.multiTimeframe.overall == TA.OverallBullish then 0
       else if t.multiTimeframe.overall == TA.OverallBearish then 2 else 0)
  }

  /** Sentiment, action and confidence of a signal count. */
  datatype Verdict = Verdict(sentiment: Sentiment, action: Action, confidence: real)

  /** A side wins only with a lead of two or more signals; its confidence
      grows by 0.1 per signal of lead from 0.5, capped at 0.75. */
  function VerdictOf(bullish: nat, bearish: nat): Verdict
  {
    if bullish > bearish + 1 then Verdict(Bullish, Long, Min(0.75, 0.5 + (bullish - bearish) as real * 0.1))
    else if bearish > bullish + 1 then Verdict(Bearish, Short, Min(0.75, 0.5 + (bearish - bullish) as real * 0.1))
    else Verdict(Neutral, Wait, 0.4)
  }

  /** Without indicators only the 24-hour change (in percent) decides. */
  function BasicVerdict(change24h: real): (v: Verdict)
  {
    if change24h > 3.0 then Verdict(Bullish, Long, 0.6)
    else if change24h < -3.0 then Verdict(Bearish, Short, 0.6)
    else Verdict(Neutral, Wait, 0.4)
  }

  /** The verdict with or without a technical snapshot. */
  function MockVerdict(t: Option<TA.Snapshot>, change24h: real): Verdict
  {
    match t
    case Some(s) => VerdictOf(BullishSignals(s, change24h), BearishSignals(s, change24h))
    case None => BasicVerdict(change24h)
  }

  /** Entry, stop and the two targets for an action at price `p`. */
  datatype Ladder = Ladder(entry: real, stop: real, takeProfit1: real, takeProfit2: real)

  function LadderOf(action: Action, p: real): Ladder
  {
    match action
    case Long => Ladder(p, p * 0.98, p * 1.04, p * 1.06)
    case Short => Ladder(p, p * 1.02, p * 0.96, p * 0.94)
    case Wait => Ladder(p, p * 0.985, p * 1.03, p * 1.05)
  }

  /** Reward over risk of a ladder, 2.0 when it carries no risk. */
  function LadderRatio(l: Ladder): real
  {
    var risk := Abs(l.entry - l.stop);
    if risk > 0.0 then Abs(l.takeProfit1 - l.entry) / risk else 2.0
  }

  /** `position_size_percent`. */
  function SizePercent(confidence: real): real
  {
    if confidence > 0.6 then 3.0 else 2.0
  }

  /** The descriptive blocks of the mock analysis. */
  function MockContext(t: Option<TA.Snapshot>, sentiment: Sentiment, p: real): Context
  {
    match t
    case Some(s) =>
      Context(s.rsiSignal, Some(s.macdSignal), s.volume.trend, sentiment,
              Some(s.multiTimeframe.overall), s.multiTimeframe.agreement, p * 1.02, p * 0.98, s.volume.vwap)
    case None =>
      Context(TA.NeutralRsi, None, TA.NeutralTrend, sentiment, None, false, p * 1.02, p * 0.98, p)
  }

  /** `create_enhanced_mock_analysis`; `t` is the comprehensive snapshot,
      absent when none was given or it was empty. */
  function CreateEnhancedMockAnalysis(market: MarketData, t: Option<TA.Snapshot>, now: int): (a: Analysis)
    ensures a.sentiment.Some? && a.confidence.Some? && a.action.Some? && a.entry.Some? && a.risk.Some?
    ensures a.analyzer == Some(EnhancedMock) && a.symbol == Some(market.symbol.GetOr("UNKNOWN"))
    ensures a.entry.value.price == Some(CurrentPrice(market))
  {
    var p := CurrentPrice(market);
    var change := market.change24h.GetOr(0.0);
    var v := MockVerdict(t, change);
    var l := LadderOf(v.action, p);
    Analysis(
      Some(v.sentiment), Some(v.confidence), Some(v.action),
      Some(EntryStrategy(Some(l.entry), Some("market order at current price"), Some(SizePercent(v.confidence)))),
      Some(RiskPlan(Some(l.stop), Some(l.takeProfit1), Some(l.takeProfit2), Some(LadderRatio(l)), Some(2.0))),
      Some(MockNarrative(v.sentiment, change, v.confidence)),
      Some(MockContext(t, v.sentiment, p)),
      Some(now), Some(EnhancedMock), Some(market.symbol.GetOr("UNKNOWN")))
  }

  /** `create_fallback_analysis`. */
  function CreateFallbackAnalysis(market: MarketData, now: int): (a: Analysis)
    ensures a.sentiment == Some(Neutral) && a.action == Some(Wait) && a.confidence == Some(0.2)
    ensures a.risk.Some? && a.risk.value.riskRewardRatio == Some(2.0)
    ensures a.analyzer == Some(FallbackAnalyzer) && a.symbol == Some(market.symbol.GetOr("UNKNOWN"))
  {
    var p := CurrentPrice(market);
    Analysis(
      Some(Neutral), Some(0.2), Some(Wait),
      Some(EntryStrategy(Some(p), Some("wait for clearer signals"), Some(1.0))),
      Some(RiskPlan(Some(p * 0.98), Some(p * 1.02), Some(p * 1.04), Some(2.0), Some(2.0))),
      Some(Text("Fallback analysis due to data errors or API issues. Conservative approach recommended.")),
      Some(Context(TA.NeutralRsi, None, TA.NeutralTrend, Neutral, None, false, p * 1.02, p * 0.98, p)),
      Some(now), Some(FallbackAnalyzer), Some(market.symbol.GetOr("UNKNOWN")))
  }

  // ---------------------------------------------------------------------
  // Properties
  // ---------------------------------------------------------------------

  /** A side is taken exactly when it leads by two or more signals, and
      the neutral verdict carries confidence 0.4. */
  lemma VerdictIff(bullish: nat, bearish: nat)
    ensures var v := VerdictOf(bullish, bearish);
      && (v.action == Long <==> bullish > bearish + 1)
      && (v.action == Short <==> bearish > bullish + 1)
      && (v.action == Wait <==> v.confidence == 0.4)
      && (v.action == Long <==> v.sentiment == Bullish)
      && (v.action == Short <==> v.sentiment == Bearish)
  {
  }

  /** A directional verdict from signal counts has confidence between 0.7
      and 0.75, and the cap is reached from a lead of three signals. */
  lemma DirectionalConfidence(bullish: nat, bearish: nat)
    ensures var v := VerdictOf(bullish, bearish);
      && (v.action != Wait ==> 0.7 <= v.confidence <= 0.75)
      && (v.action != Wait && (bullish >= bearish + 3 || bearish >= bullish + 3) ==> v.confidence == 0.75)
  {
  }

  /** The MACD label always casts one vote, so with RSI, bands and volume
      silent a multi-timeframe trend leads to a position only when the
      MACD agrees with it; otherwise the two votes leave a one-signal lead
      and the verdict is to wait. */
  lemma TrendNeedsMacd(t: TA.Snapshot, change24h: real)
    requires 40.0 <= t.rsi <= 60.0 && 0.3 <= t.bands.position <= 0.7
    requires t.volume.trend != TA.Increasing
    ensures var v := VerdictOf(BullishSignals(t, change24h), BearishSignals(t, change24h));
      var macdBullish := t.macdSignal == TA.MacdBullish || t.macdSignal == TA.Strengthening;
      && (t.multiTimeframe.overall == TA.OverallBullish ==>
            (if macdBullish then v == Verdict(Bullish, Long, 0.75) else v.action == Wait))
      && (t.multiTimeframe.overall == TA.OverallBearish ==>
            (if macdBullish then v.action == Wait else v == Verdict(Bearish, Short, 0.75)))
      && (t.multiTimeframe.overall != TA.OverallBullish && t.multiTimeframe.overall != TA.OverallBearish ==>
            v.action == Wait)
  {
  }

  /** Without a snapshot the verdict follows the 24-hour change only. */
  lemma BasicVerdictIff(change24h: real)
    ensures var v := BasicVerdict(change24h);
      && (v.action == Long <==> change24h > 3.0)
      && (v.action == Short <==> change24h < -3.0)
      && (v.action != Wait <==> v.confidence == 0.6)
      && (v.action == Wait <==> v.confidence == 0.4)
  {
  }

  /** For a positive price every ladder is ordered: the stop is on the
      losing side of the entry and both targets on the winning side, the
      second beyond the first. */
  lemma LadderOrdered(action: Action, p: real)
    requires p > 0.0
    ensures var l := LadderOf(action, p);
      && l.entry == p
      && (action == Short ==> l.takeProfit2 < l.takeProfit1 < l.entry < l.stop)
      && (action != Short ==> l.stop < l.entry < l.takeProfit1 < l.takeProfit2)
  {
  }

  /** The target is twice as far from the entry as the stop, for every
      action and every price: the reported ratio is always 2. */
  lemma LadderRatioIsTwo(action: Action, p: real)
    ensures LadderRatio(LadderOf(action, p)) == 2.0
  {
    var l := LadderOf(action, p);
    var risk := Abs(l.entry - l.stop);
    if risk > 0.0 {
      assert Abs(l.takeProfit1 - l.entry) == 2.0 * risk;
      HalfOfDouble(risk);
    }
  }

  lemma HalfOfDouble(r: real)
    requires r > 0.0
    ensures (2.0 * r) / r == 2.0
  {
  }

  /** The mock's plan always carries ratio 2, its size percent is 3
      exactly for confidence above 0.6, and the action follows the signal
      majority (with a snapshot) or the 24-hour change (without). */
  lemma MockAnalysisPlan(market: MarketData, t: Option<TA.Snapshot>, now: int)
    ensures var a := CreateEnhancedMockAnalysis(market, t, now);
      var change := market.change24h.GetOr(0.0);
      && a.risk.value.riskRewardRatio == Some(2.0)
      && a.risk.value.maxLossPercent == Some(2.0)
      && (a.entry.value.sizePercent == Some(3.0) <==> a.confidence.value > 0.6)
      && (t.None? ==> (a.action == Some(Long) <==> change > 3.0))
      && (t.Some? ==> (a.action == Some(Long) <==>
            BullishSignals(t.value, change) > BearishSignals(t.value, change) + 1))
      && 0.4 <= a.confidence.value <= 0.75
  {
    var change := market.change24h.GetOr(0.0);
    var v := MockVerdict(t, change);
    LadderRatioIsTwo(v.action, CurrentPrice(market));
    if t.Some? {
      DirectionalConfidence(BullishSignals(t.value, change), BearishSignals(t.value, change));
    }
  }

  /** The fallback plan is a 2% stop under the price and targets 2% and 4%
      above it, and the fallback never asks to trade. */
  lemma FallbackPlan(market: MarketData, now: int)
    requires CurrentPrice(market) > 0.0
    ensures var a := CreateFallbackAnalysis(market, now); var p := CurrentPrice(market);
      && a.entry == Some(EntryStrategy(Some(p), Some("wait for clearer signals"), Some(1.0)))
      && a.risk.value.stopLoss.value < p < a.risk.value.takeProfit1.value < a.risk.value.takeProfit2.value
      && a.confidence.value < 0.5
  {
  }
}
