/** The trading agent's decision step: it screens an analysis, asks the
    risk manager for a size and turns an allowed size into a trade
    decision. */
module Trading {
  import opened Market
  import opened Recommendation
  import opened Risk

  /** The trend label of the risk manager's older analysis format. */
  datatype Trend = BullishTrend | BearishTrend | Sideways

  /** The analysis in the format the risk manager reads. */
  datatype AdaptedAnalysis = AdaptedAnalysis(
    trend: Trend,
    confidence: real,
    entryPrice: real,
    stopLoss: real,
    takeProfit: real,
    riskRewardRatio: real,
    reasoning: Reasoning)

  /** `_adapt_analysis_for_risk_manager` */
  function AdaptAnalysis(a: Analysis): (r: AdaptedAnalysis)
    ensures r.trend == BullishTrend <==> a.sentiment == Some(Bullish)
    ensures r.trend == BearishTrend <==> a.sentiment == Some(Bearish)
    ensures r.confidence == a.confidence.GetOr(0.0)
    ensures r.entryPrice == a.entry.GetOr(NoEntryStrategy).price.GetOr(50000.0)
    ensures r.stopLoss == a.risk.GetOr(NoRiskPlan).stopLoss.GetOr(49000.0)
    ensures r.takeProfit == a.risk.GetOr(NoRiskPlan).takeProfit1.GetOr(51000.0)
    ensures r.riskRewardRatio == a.risk.GetOr(NoRiskPlan).riskRewardRatio.GetOr(2.0)
  {
    var entry := a.entry.GetOr(NoEntryStrategy);
    var risk := a.risk.GetOr(NoRiskPlan);
    AdaptedAnalysis(
      match a.sentiment
      case Some(Bullish) => BullishTrend
      case Some(Bearish) => BearishTrend
      case _ => Sideways,
      a.confidence.GetOr(0.0),
      entry.price.GetOr(50000.0),
      risk.stopLoss.GetOr(49000.0),
      risk.takeProfit1.GetOr(51000.0),
      risk.riskRewardRatio.GetOr(2.0),
      a.reasoning.GetOr(Text("No reasoning provided")))
  }

  /** What the risk manager reads of the adapted analysis: every key is
      present except the time horizon. */
  function SizingRequestOf(r: AdaptedAnalysis): SizingRequest
  {
    SizingRequest(Some(r.entryPrice), Some(r.stopLoss), Some(r.takeProfit), Some(r.confidence),
                  Some(r.riskRewardRatio), None)
  }

  /** The decision dictionary. */
  datatype Decision = Decision(
    action: TradeAction,
    symbol: string,
    size: real,
    entryPrice: real,
    stopLoss: real,
    takeProfit: real,
    confidence: real,
    riskAmount: real,
    potentialProfit: real,
    riskRewardRatio: real,
    kellyFraction: real,
    volatilityAdjusted: real,
    analyzer: Option<AnalyzerTag>)

  /** The screen before the risk manager is asked: confident enough and
      not told to wait (a missing action means wait). */
  predicate Screened(a: Analysis)
  {
    a.confidence.GetOr(0.0) >= 0.5 && a.action.GetOr(Wait) != Wait
  }

  /** The decision built from an allowed sizing. Prices missing from the
      analysis fall back to the market price (50000 when absent), the stop
      to 1.5% below it and the target to 3% above it. */
  function DecisionFrom(a: Analysis, market: MarketData, z: Sizing): Decision
    requires z.Sized?
  {
    var cp := CurrentPrice(market);
    var entry := a.entry.GetOr(NoEntryStrategy);
    var risk := a.risk.GetOr(NoRiskPlan);
    Decision(
      if a.action.GetOr(Wait) == Long then Buy else Sell,
      market.symbol.GetOr("BTCUSDT"),
      z.positionSize,
      entry.price.GetOr(cp),
      risk.stopLoss.GetOr(cp * 0.985),
      risk.takeProfit1.GetOr(cp * 1.03),
      a.confidence.GetOr(0.0),
      z.riskAmount,
      z.potentialProfit,
      z.riskRewardRatio,
      z.kellyFraction,
      z.volatilityAdjusted,
      a.analyzer)
  }

  /** `make_trading_decision` on the risk manager's settings and state:
      none when the screen fails or the size is not allowed; a fault the
      risk manager raises propagates. */
  function DecisionOf(cfg: RiskConfig, s: RiskState, a: Analysis, market: MarketData): Result<Option<Decision>>
  {
    if !Screened(a) then Ok(None)
    else
      match PositionSizing(cfg, s, SizingRequestOf(AdaptAnalysis(a)), market)
      case Raises(f) => Raises(f)
      case Ok(z) => if z.Allowed() then Ok(Some(DecisionFrom(a, market, z))) else Ok(None)
  }

  /** The risk manager's state after the decision step: only a sizing
      that runs to its end touches it. */
  function DecisionState(cfg: RiskConfig, s: RiskState, a: Analysis, market: MarketData): RiskState
  {
    if !Screened(a) then s else SizingState(cfg, s, SizingRequestOf(AdaptAnalysis(a)), market)
  }

  /** Low confidence or a wait, stated or implied, ends the step before
      the risk manager is asked, so its state does not change. */
  lemma ScreenedOut(cfg: RiskConfig, s: RiskState, a: Analysis, market: MarketData)
    requires a.confidence.GetOr(0.0) < 0.5 || a.action == Some(Wait) || a.action.None?
    ensures DecisionOf(cfg, s, a, market) == Ok(None)
    ensures DecisionState(cfg, s, a, market) == s
  {
  }

  /** A decision exists exactly when the screen passes and the risk
      manager allows a size; it buys exactly on a long recommendation and
      copies the size, the risk, the profit and the ratio from the
      sizing. */
  lemma DecisionIff(cfg: RiskConfig, s: RiskState, a: Analysis, market: MarketData)
    ensures var d := DecisionOf(cfg, s, a, market);
      var p := PositionSizing(cfg, s, SizingRequestOf(AdaptAnalysis(a)), market);
      (d.Ok? && d.value.Some?) <==> (Screened(a) && p.Ok? && p.value.Allowed())
    ensures var d := DecisionOf(cfg, s, a, market);
      var p := PositionSizing(cfg, s, SizingRequestOf(AdaptAnalysis(a)), market);
      d.Ok? && d.value.Some? ==>
        (d.value.value.action == Buy <==> a.action == Some(Long)) &&
        d.value.value.size == p.value.positionSize && d.value.value.size > 0.0 &&
        d.value.value.riskAmount == p.value.riskAmount &&
        d.value.value.potentialProfit == p.value.potentialProfit &&
        d.value.value.riskRewardRatio == p.value.riskRewardRatio &&
        d.value.value.confidence == a.confidence.GetOr(0.0)
    ensures DecisionOf(cfg, s, a, market).Raises? <==>
      Screened(a) && PositionSizing(cfg, s, SizingRequestOf(AdaptAnalysis(a)), market).Raises?
  {
  }

  /** The agent's own screen already enforces the risk manager's
      confidence check, so that check never refuses an analysis that
      reached it; with the default settings, an analysis without a ratio
      passes the ratio check too. */
  lemma ConfidenceGateNeverRefuses(cfg: RiskConfig, s: RiskState, a: Analysis, market: MarketData)
    requires Screened(a)
    ensures PositionSizing(cfg, s, SizingRequestOf(AdaptAnalysis(a)), market) != Ok(Refused(FailedCheck(ConfidenceGate)))
    ensures a.risk.GetOr(NoRiskPlan).riskRewardRatio.None? ==>
      !Fails(RatioGate, DefaultRiskConfig, s, SizingRequestOf(AdaptAnalysis(a)))
  {
  }

  /** A decision's size respects the risk manager's caps: at most a
      quarter of the balance in units of the adapted entry, and within the
      portfolio headroom, which was positive. */
  lemma DecisionWithinCaps(cfg: RiskConfig, s: RiskState, a: Analysis, market: MarketData)
    requires DecisionOf(cfg, s, a, market).Ok? && DecisionOf(cfg, s, a, market).value.Some?
    ensures var d := DecisionOf(cfg, s, a, market).value.value;
      var entry := AdaptAnalysis(a).entryPrice;
      entry != 0.0 && Headroom(cfg, s.positions) > 0.0 &&
      d.size <= cfg.balance * 0.25 / entry &&
      d.size <= Headroom(cfg, s.positions) / Abs(entry - AverageStopDistance(entry))
  {
    DecisionIff(cfg, s, a, market);
    SizingCaps(cfg, s, SizingRequestOf(AdaptAnalysis(a)), market);
  }

  /** `make_trading_decision`, asking `rm` for the size. */
  method MakeTradingDecision(rm: RiskManager, a: Analysis, market: MarketData) returns (r: Result<Option<Decision>>)
    modifies rm
    ensures r == DecisionOf(rm.config, old(rm.State()), a, market)
    ensures rm.State() == DecisionState(rm.config, old(rm.State()), a, market)
  {
    var confidence := a.confidence.GetOr(0.0);
    if confidence < 0.5 {
      return Ok(None);
    }
    var recommendedAction := a.action.GetOr(Wait);
    if recommendedAction == Wait {
      return Ok(None);
    }
    var riskAnalysis := AdaptAnalysis(a);
    var positionCalc := rm.CalculatePositionSize(SizingRequestOf(riskAnalysis), market);
    if positionCalc.Raises? {
      return Raises(positionCalc.fault);
    }
    if !positionCalc.value.Allowed() {
      return Ok(None);
    }
    r := Ok(Some(DecisionFrom(a, market, positionCalc.value)));
  }

  /** The scenario of a confident long call at 50000 with a stop at 49000,
      sized by a fresh manager with the default settings: it buys
      600 / 49000 units, risking $600. */
  lemma DecisionScenario()
    ensures var a := Analysis(Some(Bullish), Some(0.85), Some(Long),
        Some(EntryStrategy(Some(50000.0), None, None)),
        Some(RiskPlan(Some(49000.0), Some(51000.0), None, Some(2.0), None)),
        None, None, None, Some(ClaudeEnhanced), None);
      var market := MarketData(Some("BTCUSDT"), Some(50000.0), Some(2.0), Some(3000000000.0));
      DecisionOf(DefaultRiskConfig, InitialState, a, market) ==
        Ok(Some(Decision(Buy, "BTCUSDT", 600.0 / 49000.0, 50000.0, 49000.0, 51000.0, 0.85,
                         600.0 / 49000.0 * 1000.0, 1000.0 * (600.0 / 49000.0), 1.0, 0.5, 1.0, Some(ClaudeEnhanced))))
  {
    var a := Analysis(Some(Bullish), Some(0.85), Some(Long),
        Some(EntryStrategy(Some(50000.0), None, None)),
        Some(RiskPlan(Some(49000.0), Some(51000.0), None, Some(2.0), None)),
        None, None, None, Some(ClaudeEnhanced), None);
    var market := MarketData(Some("BTCUSDT"), Some(50000.0), Some(2.0), Some(3000000000.0));
    assert SizingRequestOf(AdaptAnalysis(a)) ==
      SizingRequest(Some(50000.0), Some(49000.0), Some(51000.0), Some(0.85), Some(2.0), None);
    SizingScenario();
  }
}
