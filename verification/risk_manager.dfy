/** The risk manager: it gates and sizes a proposed trade against the
    account and the open positions, and keeps the positions, the day's
    counters, the closed-trade history and the win/loss statistics that
    the Kelly fraction is computed from. */
module Risk {
  import opened Market

  // ---------------------------------------------------------------------
  // Configuration and records
  // ---------------------------------------------------------------------

  /** The settings read from the configuration when the manager is built.
      `balance` is never written afterwards. */
  datatype RiskConfig = RiskConfig(
    balance: real,
    maxRiskPerTrade: real,
    maxPortfolioRisk: real,
    maxDailyLoss: real,
    minRiskRewardRatio: real,
    maxPositions: int,
    maxDailyTrades: int,
    volatilityAdjustment: bool)

  /** The settings an empty configuration yields. */
  const DefaultRiskConfig := RiskConfig(10000.0, 0.02, 0.06, 0.05, 2.0, 3, 10, true)

  datatype Side = LongSide | ShortSide

  /** The `action` of a trade decision; any label other than "buy" opens
      a short position. */
  datatype TradeAction = Buy | Sell

  /** An open position; `timestamp` is the moment it was opened. */
  datatype Position = Position(
    symbol: string,
    side: Side,
    size: real,
    entryPrice: real,
    stopLoss: real,
    takeProfit: real,
    timestamp: int,
    confidence: real,
    riskAmount: real,
    expectedReturn: real)

  /** A closed trade, as appended to the history. */
  datatype TradeRecord = TradeRecord(
    symbol: string,
    side: Side,
    entryPrice: real,
    closePrice: real,
    size: real,
    pnl: real,
    timestamp: int,
    confidence: real)

  datatype Stats = Stats(winRate: real, avgWin: real, avgLoss: real)

  /** Everything the manager updates. */
  datatype RiskState = RiskState(
    positions: seq<Position>,
    dailyPnl: real,
    dailyTrades: int,
    history: seq<TradeRecord>,
    stats: Stats)

  const InitialState := RiskState([], 0.0, 0, [], Stats(0.0, 0.0, 0.0))

  // ---------------------------------------------------------------------
  // Portfolio risk
  // ---------------------------------------------------------------------

  /** The risk amounts of the open positions, summed. */
  function PortfolioRisk(ps: seq<Position>): real
  {
    if ps == [] then 0.0 else PortfolioRisk(ps[..|ps| - 1]) + ps[|ps| - 1].riskAmount
  }

  /** Room left under the portfolio risk cap. */
  function Headroom(cfg: RiskConfig, ps: seq<Position>): real
  {
    cfg.balance * cfg.maxPortfolioRisk - PortfolioRisk(ps)
  }

  /** Positions whose risk amounts are non-negative never add up to a
      negative risk, and closing one never raises the total. */
  lemma {:induction false} PortfolioRiskNonNegative(ps: seq<Position>)
    requires forall i :: 0 <= i < |ps| ==> ps[i].riskAmount >= 0.0
    ensures PortfolioRisk(ps) >= 0.0
  {
    if ps != [] {
      PortfolioRiskNonNegative(ps[..|ps| - 1]);
    }
  }

  lemma {:induction false} PortfolioRiskAppend(ps: seq<Position>, qs: seq<Position>)
    ensures PortfolioRisk(ps + qs) == PortfolioRisk(ps) + PortfolioRisk(qs)
  {
    if qs == [] {
      assert ps + qs == ps;
    } else {
      assert (ps + qs)[..|ps + qs| - 1] == ps + qs[..|qs| - 1];
      PortfolioRiskAppend(ps, qs[..|qs| - 1]);
    }
  }

  // ---------------------------------------------------------------------
  // The six checks
  // ---------------------------------------------------------------------

  /** What `calculate_position_size` reads from the adapted analysis. */
  datatype SizingRequest = SizingRequest(
    entryPrice: Option<real>,
    stopLoss: Option<real>,
    takeProfit: Option<real>,
    confidence: Option<real>,
    riskRewardRatio: Option<real>,
    timeHorizon: Option<string>)

  /** The checks, in the order they are made. */
  datatype Gate = ConfidenceGate | RatioGate | PositionsGate | DailyLossGate | TradesGate | PortfolioGate

  function Rank(g: Gate): nat
  {
    match g
    case ConfidenceGate => 0
    case RatioGate => 1
    case PositionsGate => 2
    case DailyLossGate => 3
    case TradesGate => 4
    case PortfolioGate => 5
  }

  /** Check `g` fails on its own. The daily-loss check divides by the
      balance, so it is only defined for a non-zero balance. */
  predicate Fails(g: Gate, cfg: RiskConfig, s: RiskState, req: SizingRequest)
  {
    match g
    case ConfidenceGate => req.confidence.GetOr(0.0) < 0.5
    case RatioGate => req.riskRewardRatio.GetOr(0.0) < cfg.minRiskRewardRatio
    case PositionsGate => |s.positions| >= cfg.maxPositions
    case DailyLossGate => cfg.balance != 0.0 && s.dailyPnl < 0.0 && Abs(s.dailyPnl) / cfg.balance >= cfg.maxDailyLoss
    case TradesGate => s.dailyTrades >= cfg.maxDailyTrades
    case PortfolioGate => Headroom(cfg, s.positions) <= 0.0
  }

  /** `_perform_risk_checks`: the first failing check, or none. The
      daily-loss fraction raises on a zero balance. */
  function RiskChecks(cfg: RiskConfig, s: RiskState, req: SizingRequest): Result<Option<Gate>>
  {
    if req.confidence.GetOr(0.0) < 0.5 then Ok(Some(ConfidenceGate))
    else if req.riskRewardRatio.GetOr(0.0) < cfg.minRiskRewardRatio then Ok(Some(RatioGate))
    else if |s.positions| >= cfg.maxPositions then Ok(Some(PositionsGate))
    else if cfg.balance == 0.0 then Raises(ZeroDivision)
    else if s.dailyPnl < 0.0 && Abs(s.dailyPnl) / cfg.balance >= cfg.maxDailyLoss then Ok(Some(DailyLossGate))
    else if s.dailyTrades >= cfg.maxDailyTrades then Ok(Some(TradesGate))
    else if Headroom(cfg, s.positions) <= 0.0 then Ok(Some(PortfolioGate))
    else Ok(None)
  }

  /** The checks report the failing check of lowest rank; they raise
      exactly when the first three pass and the balance is zero; they
      pass exactly when no check fails and the balance is non-zero. */
  lemma RiskChecksFirstFailing(cfg: RiskConfig, s: RiskState, req: SizingRequest)
    ensures forall g :: RiskChecks(cfg, s, req) == Ok(Some(g)) <==>
      Fails(g, cfg, s, req) && (Rank(g) >= 3 ==> cfg.balance != 0.0) &&
      forall h :: Rank(h) < Rank(g) ==> !Fails(h, cfg, s, req)
    ensures RiskChecks(cfg, s, req).Raises? <==>
      cfg.balance == 0.0 && !Fails(ConfidenceGate, cfg, s, req) && !Fails(RatioGate, cfg, s, req) &&
      !Fails(PositionsGate, cfg, s, req)
    ensures RiskChecks(cfg, s, req) == Ok(None) <==>
      cfg.balance != 0.0 && forall g :: !Fails(g, cfg, s, req)
  {
    var r := RiskChecks(cfg, s, req);
    forall g
      ensures r == Ok(Some(g)) <==>
        Fails(g, cfg, s, req) && (Rank(g) >= 3 ==> cfg.balance != 0.0) &&
        forall h :: Rank(h) < Rank(g) ==> !Fails(h, cfg, s, req)
    {
      forall h | Rank(h) < Rank(g) && r == Ok(Some(g))
        ensures !Fails(h, cfg, s, req)
      {
      }
      if Fails(g, cfg, s, req) && (Rank(g) >= 3 ==> cfg.balance != 0.0) &&
         forall h :: Rank(h) < Rank(g) ==> !Fails(h, cfg, s, req) {
        FirstFailingIsReported(cfg, s, req, g);
      }
    }
    if r == Ok(None) || (cfg.balance != 0.0 && forall g :: !Fails(g, cfg, s, req)) {
      assert !Fails(ConfidenceGate, cfg, s, req) && !Fails(RatioGate, cfg, s, req);
      assert !Fails(PositionsGate, cfg, s, req) && !Fails(DailyLossGate, cfg, s, req);
      assert !Fails(TradesGate, cfg, s, req) && !Fails(PortfolioGate, cfg, s, req);
    }
  }

  lemma FirstFailingIsReported(cfg: RiskConfig, s: RiskState, req: SizingRequest, g: Gate)
    requires Fails(g, cfg, s, req) && (Rank(g) >= 3 ==> cfg.balance != 0.0)
    requires forall h :: Rank(h) < Rank(g) ==> !Fails(h, cfg, s, req)
    ensures RiskChecks(cfg, s, req) == Ok(Some(g))
  {
    assert Rank(g) > 0 ==> !Fails(ConfidenceGate, cfg, s, req);
    assert Rank(g) > 1 ==> !Fails(RatioGate, cfg, s, req);
    assert Rank(g) > 2 ==> !Fails(PositionsGate, cfg, s, req);
    assert Rank(g) > 3 ==> !Fails(DailyLossGate, cfg, s, req);
    assert Rank(g) > 4 ==> !Fails(TradesGate, cfg, s, req);
  }

  // ---------------------------------------------------------------------
  // Size multipliers
  // ---------------------------------------------------------------------

  /** `_calculate_confidence_multiplier` */
  function ConfidenceMultiplier(confidence: real): real
  {
    if confidence < 0.6 then 0.5
    else if confidence < 0.7 then 0.7
    else if confidence < 0.8 then 0.9
    else if confidence < 0.9 then 1.0
    else 1.2
  }

  /** `_calculate_volatility_factor`, on the absolute 24h change in percent. */
  function VolatilityFactor(market: MarketData): real
  {
    var change := Abs(market.change24h.GetOr(0.0));
    if change < 1.0 then 1.2
    else if change < 3.0 then 1.0
    else if change < 5.0 then 0.8
    else 0.6
  }

  /** `_calculate_time_multiplier`: a substring test on the digits of the
      horizon text. */
  function TimeMultiplier(horizon: string): real
  {
    if '1' in horizon then 0.8
    else if '2' in horizon || '3' in horizon then 1.0
    else if '4' in horizon || '6' in horizon then 1.1
    else 1.0
  }

  /** `_calculate_volume_factor`, on the 24h volume in dollars. */
  function VolumeFactor(market: MarketData): real
  {
    var volume := market.volume24h.GetOr(0.0);
    if volume > 2000000000.0 then 1.0
    else if volume > 1000000000.0 then 0.9
    else if volume > 500000000.0 then 0.8
    else 0.7
  }

  /** More confidence never shrinks the size: the multiplier rises from
      0.5 to 1.2 in steps at 0.6, 0.7, 0.8 and 0.9. */
  lemma ConfidenceMultiplierSteps(a: real, b: real)
    requires a <= b
    ensures 0.5 <= ConfidenceMultiplier(a) <= ConfidenceMultiplier(b) <= 1.2
    ensures ConfidenceMultiplier(a) == 0.5 <==> a < 0.6
    ensures ConfidenceMultiplier(a) == 1.2 <==> a >= 0.9
  {
  }

  /** A larger absolute 24h move never enlarges the size, and the sign of
      the move does not matter. */
  lemma VolatilityFactorSteps(m: MarketData, n: MarketData)
    requires Abs(m.change24h.GetOr(0.0)) <= Abs(n.change24h.GetOr(0.0))
    ensures 0.6 <= VolatilityFactor(n) <= VolatilityFactor(m) <= 1.2
    ensures m.change24h.GetOr(0.0) == -n.change24h.GetOr(0.0) ==> VolatilityFactor(m) == VolatilityFactor(n)
  {
  }

  /** A '1' anywhere wins over every other digit, and the default horizon
      "2-4 часа" yields the neutral multiplier. */
  lemma TimeMultiplierPrecedence(horizon: string)
    ensures TimeMultiplier(horizon) in {0.8, 1.0, 1.1}
    ensures '1' in horizon ==> TimeMultiplier(horizon) == 0.8
    ensures TimeMultiplier(horizon) == 1.1 <==>
      '1' !in horizon && '2' !in horizon && '3' !in horizon && ('4' in horizon || '6' in horizon)
    ensures TimeMultiplier("2-4 часа") == 1.0
  {
    assert '2' in "2-4 часа" && '1' !in "2-4 часа";
  }

  /** More liquidity never shrinks the size. */
  lemma VolumeFactorSteps(m: MarketData, n: MarketData)
    requires m.volume24h.GetOr(0.0) <= n.volume24h.GetOr(0.0)
    ensures 0.7 <= VolumeFactor(m) <= VolumeFactor(n) <= 1.0
  {
  }

  /** `_adjust_position_size`. With volatility adjustment switched off the
      debug line reads the never-assigned volatility factor and raises. */
  function AdjustPositionSize(cfg: RiskConfig, base: real, confidence: real, req: SizingRequest, market: MarketData): Result<real>
  {
    if !cfg.volatilityAdjustment then Raises(UnboundVariable)
    else
      var sized := Times(Times(base, ConfidenceMultiplier(confidence)), VolatilityFactor(market));
      Ok(Times(Times(sized, TimeMultiplier(req.timeHorizon.GetOr("2-4 часа"))), VolumeFactor(market)))
  }

  /** The multipliers together scale a non-negative base size by at least
      0.5 * 0.6 * 0.8 * 0.7 and at most 1.2 * 1.2 * 1.1 * 1.0. */
  lemma AdjustedSizeBounds(cfg: RiskConfig, base: real, c: real, req: SizingRequest, market: MarketData)
    requires cfg.volatilityAdjustment && base >= 0.0
    ensures base * 0.168 <= AdjustPositionSize(cfg, base, c, req, market).value <= base * 1.584
  {
    var h := req.timeHorizon.GetOr("2-4 часа");
    ConfidenceMultiplierSteps(c, c);
    TimeMultiplierPrecedence(h);
    VolatilityFactorSteps(market, market);
    VolumeFactorSteps(market, market);
    ScaledFourTimes(base, ConfidenceMultiplier(c), VolatilityFactor(market), TimeMultiplier(h), VolumeFactor(market));
  }

  /** More confidence never yields a smaller adjusted size. */
  lemma AdjustedSizeMonotone(cfg: RiskConfig, base: real, c: real, d: real, req: SizingRequest, market: MarketData)
    requires cfg.volatilityAdjustment && base >= 0.0 && c <= d
    ensures AdjustPositionSize(cfg, base, c, req, market).value <= AdjustPositionSize(cfg, base, d, req, market).value
  {
    var h := req.timeHorizon.GetOr("2-4 часа");
    ConfidenceMultiplierSteps(c, d);
    TimeMultiplierPrecedence(h);
    VolatilityFactorSteps(market, market);
    VolumeFactorSteps(market, market);
    ScaledFourTimesMonotone(base, ConfidenceMultiplier(c), ConfidenceMultiplier(d),
      VolatilityFactor(market), TimeMultiplier(h), VolumeFactor(market));
  }

  /** Four factors within the multiplier ranges scale a non-negative base
      within [0.168, 1.584] times the base. */
  lemma ScaledFourTimes(base: real, m: real, v: real, t: real, w: real)
    requires base >= 0.0 && 0.5 <= m <= 1.2 && 0.6 <= v <= 1.2 && 0.8 <= t <= 1.1 && 0.7 <= w <= 1.0
    ensures base * 0.168 <= Times(Times(Times(Times(base, m), v), t), w) <= base * 1.584
  {
    var x1 := Times(base, m);
    var x2 := Times(x1, v);
    var x3 := Times(x2, t);
    ScaleBetween(base, base, base, m, 0.5, 1.2);
    ScaleBetween(x1, base * 0.5, base * 1.2, v, 0.6, 1.2);
    ScaleBetween(x2, base * 0.3, base * 1.44, t, 0.8, 1.1);
    ScaleBetween(x3, base * 0.24, base * 1.584, w, 0.7, 1.0);
  }

  /** A larger first factor never yields a smaller product. */
  lemma ScaledFourTimesMonotone(base: real, m1: real, m2: real, v: real, t: real, w: real)
    requires base >= 0.0 && 0.0 <= m1 <= m2 && v >= 0.0 && t >= 0.0 && w >= 0.0
    ensures Times(Times(Times(Times(base, m1), v), t), w) <= Times(Times(Times(Times(base, m2), v), t), w)
  {
    var x1, y1 := Times(base, m1), Times(base, m2);
    var x2, y2 := Times(x1, v), Times(y1, v);
    var x3, y3 := Times(x2, t), Times(y2, t);
    ScaleBetween(base, base, base, m1, m1, m2);
    ScaleBetween(x1, x1, y1, v, v, v);
    ScaleBetween(x2, x2, y2, t, t, t);
    ScaleBetween(x3, x3, y3, w, w, w);
  }

  /** Scaling a value in [lo, hi] by a factor in [flo, fhi], all
      non-negative, stays within [lo * flo, hi * fhi]. */
  lemma ScaleBetween(x: real, lo: real, hi: real, f: real, flo: real, fhi: real)
    requires 0.0 <= lo <= x <= hi && 0.0 <= flo <= f <= fhi
    ensures lo * flo <= x * f <= hi * fhi
  {
    assert lo * flo <= lo * f by { MulLeft(lo, flo, f); }
    assert lo * f <= x * f by { MulLeft(f, lo, x); }
    assert x * f <= hi * f by { MulLeft(f, x, hi); }
    assert hi * f <= hi * fhi by { MulLeft(hi, f, fhi); }
  }

  lemma MulLeft(k: real, a: real, b: real)
    requires k >= 0.0 && a <= b
    ensures k * a <= k * b && a * k <= b * k
  {
    assert k * b - k * a == k * (b - a);
  }

  // ---------------------------------------------------------------------
  // Position limits
  // ---------------------------------------------------------------------

  /** `_get_average_stop_distance`: 2% of the entry, used as if it were a
      stop price. */
  function AverageStopDistance(entry: real): real
  {
    entry * 0.02
  }

  /** `_apply_position_limits`: zero below the $100 minimum, then capped
      at a quarter of the balance and at the risk headroom divided by
      |entry - 0.02 * entry|; raises on a zero entry. */
  function ApplyPositionLimits(cfg: RiskConfig, positions: seq<Position>, size: real, entry: real): (r: Result<real>)
    ensures r.Raises? <==> entry == 0.0
    ensures r.Ok? ==> r.value >= 0.0
    ensures r.Ok? && size < 100.0 / entry ==> r.value == 0.0
    ensures r.Ok? && r.value > 0.0 ==>
      r.value <= size && r.value <= cfg.balance * 0.25 / entry &&
      (Headroom(cfg, positions) > 0.0 ==>
        r.value <= Headroom(cfg, positions) / Abs(entry - AverageStopDistance(entry)))
    ensures r.Ok? && size >= 100.0 / entry ==>
      r.value >= size || r.value >= cfg.balance * 0.25 / entry ||
      (Headroom(cfg, positions) > 0.0 &&
        r.value >= Headroom(cfg, positions) / Abs(entry - AverageStopDistance(entry)))
  {
    if entry == 0.0 then Raises(ZeroDivision)
    else
      var minSize := 100.0 / entry;
      if size < minSize then Ok(0.0)
      else
        var maxSize := cfg.balance * 0.25 / entry;
        var availableRisk := Headroom(cfg, positions);
        var divisor := Abs(entry - AverageStopDistance(entry));
        assert divisor > 0.0 by {
          assert AverageStopDistance(entry) == entry * 0.02;
        }
        var maxRiskSize := if availableRisk > 0.0 then availableRisk / divisor else 0.0;
        assert availableRisk > 0.0 ==> maxRiskSize > 0.0 by {
          if availableRisk > 0.0 {
            DivPositive(availableRisk, divisor);
          }
        }
        var finalSize := if maxRiskSize > 0.0 then Min(size, Min(maxSize, maxRiskSize)) else Min(size, maxSize);
        Ok(Max(0.0, finalSize))
  }

  lemma DivPositive(x: real, y: real)
    requires x > 0.0 && y > 0.0
    ensures x / y > 0.0
  {
  }

  // ---------------------------------------------------------------------
  // Kelly fraction and trade statistics
  // ---------------------------------------------------------------------

  /** The profit or loss of each recorded trade, in order. */
  function Pnls(h: seq<TradeRecord>): (r: seq<real>)
    ensures |r| == |h| && forall i :: 0 <= i < |h| ==> r[i] == h[i].pnl
  {
    if h == [] then [] else Pnls(h[..|h| - 1]) + [h[|h| - 1].pnl]
  }

  /** The winning trades' profits, in order: each positive pnl occurs as
      often as in the history, and nothing else occurs. */
  function Wins(h: seq<TradeRecord>): (r: seq<real>)
    ensures |r| <= |h| && forall i :: 0 <= i < |r| ==> r[i] > 0.0
    ensures forall v :: multiset(r)[v] == if v > 0.0 then multiset(Pnls(h))[v] else 0
  {
    if h == [] then []
    else
      var x := h[|h| - 1].pnl;
      assert Pnls(h) == Pnls(h[..|h| - 1]) + [x];
      Wins(h[..|h| - 1]) + if x > 0.0 then [x] else []
  }

  /** The losing trades' (negative) pnls, in order: each negative pnl
      occurs as often as in the history, and nothing else occurs. */
  function Losses(h: seq<TradeRecord>): (r: seq<real>)
    ensures |r| <= |h| && forall i :: 0 <= i < |r| ==> r[i] < 0.0
    ensures forall v :: multiset(r)[v] == if v < 0.0 then multiset(Pnls(h))[v] else 0
  {
    if h == [] then []
    else
      var x := h[|h| - 1].pnl;
      assert Pnls(h) == Pnls(h[..|h| - 1]) + [x];
      Losses(h[..|h| - 1]) + if x < 0.0 then [x] else []
  }

  /** Splitting the history keeps the order of wins and of losses: those
      of two runs of trades are the first run's followed by the second's. */
  lemma {:induction false} WinsLossesConcat(a: seq<TradeRecord>, b: seq<TradeRecord>)
    ensures Wins(a + b) == Wins(a) + Wins(b)
    ensures Losses(a + b) == Losses(a) + Losses(b)
  {
    if b == [] {
      assert a + b == a;
    } else {
      var init := b[..|b| - 1];
      assert (a + b)[..|a + b| - 1] == a + init;
      WinsLossesConcat(a, init);
    }
  }

  /** The statistics `_update_trade_statistics` computes from a non-empty
      history. */
  function StatsOf(h: seq<TradeRecord>): Stats
    requires h != []
  {
    var wins := Wins(h);
    var losses := Losses(h);
    Stats(
      (|wins| as real) / (|h| as real),
      if wins == [] then 0.0 else Sum(wins) / (|wins| as real),
      if losses == [] then 0.0 else Sum(losses) / (|losses| as real))
  }

  /** `_update_trade_statistics`: nothing changes on an empty history. */
  function UpdatedStats(s: RiskState): Stats
  {
    if s.history == [] then s.stats else StatsOf(s.history)
  }

  lemma {:induction false} SumPositive(xs: seq<real>)
    requires xs != [] && forall i :: 0 <= i < |xs| ==> xs[i] > 0.0
    ensures Sum(xs) > 0.0
  {
    if |xs| > 1 {
      SumPositive(xs[..|xs| - 1]);
    }
  }

  lemma {:induction false} SumNegative(xs: seq<real>)
    requires xs != [] && forall i :: 0 <= i < |xs| ==> xs[i] < 0.0
    ensures Sum(xs) < 0.0
  {
    if |xs| > 1 {
      SumNegative(xs[..|xs| - 1]);
    }
  }

  /** The win rate is a fraction, zero exactly without a winning trade;
      the average win is positive exactly when there is a win, and the
      average loss negative exactly when there is a loss. */
  lemma StatsBounds(h: seq<TradeRecord>)
    requires h != []
    ensures 0.0 <= StatsOf(h).winRate <= 1.0
    ensures StatsOf(h).winRate == 0.0 <==> Wins(h) == []
    ensures StatsOf(h).avgWin >= 0.0 && (StatsOf(h).avgWin > 0.0 <==> Wins(h) != [])
    ensures StatsOf(h).avgLoss <= 0.0 && (StatsOf(h).avgLoss < 0.0 <==> Losses(h) != [])
  {
    var wins := Wins(h);
    var losses := Losses(h);
    assert (|wins| as real) <= (|h| as real);
    FractionBounds(|wins| as real, |h| as real);
    if wins != [] {
      SumPositive(wins);
      DivPositive(Sum(wins), |wins| as real);
    }
    if losses != [] {
      SumNegative(losses);
      DivNegative(Sum(losses), |losses| as real);
    }
  }

  lemma FractionBounds(k: real, n: real)
    requires 0.0 <= k <= n && n > 0.0
    ensures 0.0 <= k / n <= 1.0 && (k / n == 0.0 <==> k == 0.0)
  {
  }

  lemma DivNegative(x: real, y: real)
    requires x < 0.0 && y > 0.0
    ensures x / y < 0.0
  {
  }

  /** The Kelly formula f = (b p - q) / b, clamped to [0.1, 0.5]; 0.25
      without a loss or a win, and 0.25 where the division fails. */
  function KellyFraction(st: Stats): (k: real)
    ensures 0.1 <= k <= 0.5
    ensures st.avgLoss == 0.0 || st.winRate == 0.0 || st.avgWin == 0.0 ==> k == 0.25
    ensures st.avgLoss != 0.0 && st.winRate != 0.0 && st.avgWin != 0.0 ==>
      var f := KellyFormula(st.avgWin / Abs(st.avgLoss), st.winRate);
      k == (if f < 0.1 then 0.1 else if f > 0.5 then 0.5 else f)
  {
    if st.avgLoss == 0.0 || st.winRate == 0.0 then 0.25
    else
      var b := st.avgWin / Abs(st.avgLoss);
      if b == 0.0 then 0.25
      else
        var f := KellyFormula(b, st.winRate);
        if f < 0.1 then 0.1 else if f > 0.5 then 0.5 else f
  }

  /** f = (b p - q) / b with q = 1 - p. */
  function KellyFormula(b: real, p: real): real
    requires b != 0.0
  {
    var q := 1.0 - p;
    (b * p - q) / b
  }

  /** `_calculate_kelly_fraction`: 0.5 with fewer than ten closed trades;
      otherwise the statistics are recomputed first. Returns the fraction
      and the statistics afterwards. */
  function KellyStep(s: RiskState): (real, Stats)
  {
    if |s.history| < 10 then (0.5, s.stats)
    else (KellyFraction(StatsOf(s.history)), StatsOf(s.history))
  }

  /** The fraction is 0.5 and the statistics stay with fewer than ten
      trades; otherwise the statistics are overwritten from the history
      and the fraction is clamped to [0.1, 0.5]. */
  lemma KellyStepCorrect(s: RiskState)
    ensures 0.1 <= KellyStep(s).0 <= 0.5
    ensures |s.history| < 10 ==> KellyStep(s) == (0.5, s.stats)
    ensures |s.history| >= 10 ==> KellyStep(s).1 == UpdatedStats(s)
    ensures |s.history| >= 10 && (Wins(s.history) == [] || Losses(s.history) == []) ==> KellyStep(s).0 == 0.25
    ensures |s.history| >= 10 ==> KellyStep(s).0 == KellyFraction(KellyStep(s).1)
  {
    if |s.history| >= 10 {
      StatsBounds(s.history);
    }
  }

  // ---------------------------------------------------------------------
  // Sizing
  // ---------------------------------------------------------------------

  /** Why a size was refused. */
  datatype Refusal = FailedCheck(gate: Gate) | UndefinedUnitRisk

  /** The sizing dictionary: either refused before any sizing, with size
      and risk 0, or fully computed. */
  datatype Sizing =
    | Refused(refusal: Refusal)
    | Sized(positionSize: real, riskAmount: real, potentialProfit: real, riskRewardRatio: real,
            confidenceAdjusted: real, volatilityAdjusted: real, kellyFraction: real)
  {
    function Size(): real
    {
      if Refused? then 0.0 else positionSize
    }

    function Risk(): real
    {
      if Refused? then 0.0 else riskAmount
    }

    /** `allowed` */
    predicate Allowed()
    {
      Sized? && positionSize > 0.0
    }
  }

  /** Risk per unit: the distance from the entry to the stop, each 0 when
      absent. */
  function UnitRisk(req: SizingRequest): real
  {
    Abs(req.entryPrice.GetOr(0.0) - req.stopLoss.GetOr(0.0))
  }

  /** The base size after the multipliers. */
  function AdjustedSize(cfg: RiskConfig, req: SizingRequest, market: MarketData): Result<real>
    requires UnitRisk(req) > 0.0
  {
    AdjustPositionSize(cfg, BaseSize(cfg, req), req.confidence.GetOr(0.0), req, market)
  }

  /** `base_position_size`: the balance share `maxRiskPerTrade` over the
      unit risk. */
  function BaseSize(cfg: RiskConfig, req: SizingRequest): real
    requires UnitRisk(req) > 0.0
  {
    cfg.balance * cfg.maxRiskPerTrade / UnitRisk(req)
  }

  /** The adjusted size after the limits: the base size risks
      `maxRiskPerTrade` of the balance over the unit risk. */
  function FinalSize(cfg: RiskConfig, s: RiskState, req: SizingRequest, market: MarketData): Result<real>
    requires UnitRisk(req) > 0.0
  {
    match AdjustedSize(cfg, req, market)
    case Raises(f) => Raises(f)
    case Ok(adjusted) => ApplyPositionLimits(cfg, s.positions, adjusted, req.entryPrice.GetOr(0.0))
  }

  /** The computed sizing dictionary. */
  function SizedResult(finalSize: real, riskPerUnit: real, rewardPerUnit: real, confidence: real,
                       volatility: real, kelly: real): Sizing
  {
    var riskAmount := Times(finalSize, riskPerUnit);
    var potentialProfit := Times(rewardPerUnit, finalSize);
    Sized(finalSize, riskAmount, potentialProfit,
          if riskAmount > 0.0 then potentialProfit / riskAmount else 0.0,
          confidence, volatility, kelly)
  }

  /** `calculate_position_size` as a function of the state it reads. */
  function PositionSizing(cfg: RiskConfig, s: RiskState, req: SizingRequest, market: MarketData): Result<Sizing>
  {
    match RiskChecks(cfg, s, req)
    case Raises(f) => Raises(f)
    case Ok(Some(g)) => Ok(Refused(FailedCheck(g)))
    case Ok(None) =>
      if UnitRisk(req) <= 0.0 then Ok(Refused(UndefinedUnitRisk))
      else
        match FinalSize(cfg, s, req, market)
        case Raises(f) => Raises(f)
        case Ok(finalSize) =>
          Ok(SizedResult(finalSize, UnitRisk(req), Abs(req.takeProfit.GetOr(0.0) - req.entryPrice.GetOr(0.0)),
                         req.confidence.GetOr(0.0), VolatilityFactor(market), KellyStep(s).0))
  }

  /** The state after sizing: the Kelly step runs, and may rewrite the
      statistics, only when the sizing got as far as its result. */
  function SizingState(cfg: RiskConfig, s: RiskState, req: SizingRequest, market: MarketData): RiskState
  {
    var r := PositionSizing(cfg, s, req, market);
    if r.Ok? && r.value.Sized? then s.(stats := KellyStep(s).1) else s
  }

  /** A refusal comes with size 0 and risk 0; a computed size is never
      negative, is allowed exactly when positive, risks exactly
      size * |entry - stop|, and reports a zero ratio when it risks
      nothing. A computed size also means every check passed. */
  lemma SizingResultCorrect(cfg: RiskConfig, s: RiskState, req: SizingRequest, market: MarketData)
    requires PositionSizing(cfg, s, req, market).Ok?
    ensures var z := PositionSizing(cfg, s, req, market).value;
      z.Size() >= 0.0 && (z.Allowed() <==> z.Size() > 0.0) &&
      (z.Refused? ==> z.Risk() == 0.0 && !z.Allowed())
    ensures var z := PositionSizing(cfg, s, req, market).value;
      z.Sized? ==>
        RiskChecks(cfg, s, req) == Ok(None) && req.entryPrice.GetOr(0.0) != 0.0 && cfg.volatilityAdjustment &&
        z.riskAmount == Times(z.positionSize, UnitRisk(req)) &&
        (z.riskAmount == 0.0 ==> z.riskRewardRatio == 0.0) &&
        z.confidenceAdjusted == req.confidence.GetOr(0.0) &&
        z.volatilityAdjusted == VolatilityFactor(market) &&
        z.kellyFraction == KellyStep(s).0
  {
    var z := PositionSizing(cfg, s, req, market).value;
    if z.Sized? {
      assert RiskChecks(cfg, s, req) == Ok(None) && UnitRisk(req) > 0.0;
      FinalSizeIsLimited(cfg, s, req, market);
      LimitsHold(cfg, s.positions, AdjustedSize(cfg, req, market).value, req.entryPrice.GetOr(0.0));
    }
  }

  /** A computed final size is the adjusted size after the limits. */
  lemma FinalSizeIsLimited(cfg: RiskConfig, s: RiskState, req: SizingRequest, market: MarketData)
    requires UnitRisk(req) > 0.0 && FinalSize(cfg, s, req, market).Ok?
    ensures cfg.volatilityAdjustment && AdjustedSize(cfg, req, market).Ok?
    ensures FinalSize(cfg, s, req, market) ==
      ApplyPositionLimits(cfg, s.positions, AdjustedSize(cfg, req, market).value, req.entryPrice.GetOr(0.0))
  {
  }

  /** The limited size is the smallest applicable cap, floored at 0: a
      value that is under every cap when positive and reaches one of them
      is exactly that minimum. */
  lemma LimitsHold(cfg: RiskConfig, ps: seq<Position>, size: real, entry: real)
    requires ApplyPositionLimits(cfg, ps, size, entry).Ok?
    ensures var z := ApplyPositionLimits(cfg, ps, size, entry).value;
      entry != 0.0 && z >= 0.0 && (size < 100.0 / entry ==> z == 0.0) &&
      (z > 0.0 ==> (z <= size && z <= cfg.balance * 0.25 / entry &&
        (Headroom(cfg, ps) > 0.0 ==> z <= Headroom(cfg, ps) / Abs(entry - AverageStopDistance(entry)))))
    ensures size >= 100.0 / entry ==>
      ApplyPositionLimits(cfg, ps, size, entry).value == Max(0.0, LeastCap(cfg, ps, size, entry))
  {
    var z := ApplyPositionLimits(cfg, ps, size, entry).value;
    if size >= 100.0 / entry {
      FlooredMinimum(z, size, cfg.balance * 0.25 / entry,
        if Headroom(cfg, ps) > 0.0 then Headroom(cfg, ps) / Abs(entry - AverageStopDistance(entry)) else size);
    }
  }

  /** The smallest of the size, the quarter-balance cap and, when there is
      headroom, the headroom cap. */
  function LeastCap(cfg: RiskConfig, ps: seq<Position>, size: real, entry: real): real
    requires entry != 0.0
  {
    var headroomCap := if Headroom(cfg, ps) > 0.0 then Headroom(cfg, ps) / Abs(entry - AverageStopDistance(entry)) else size;
    Min(size, Min(cfg.balance * 0.25 / entry, headroomCap))
  }

  /** A non-negative value that is under all three bounds when positive and
      reaches one of them is the least bound floored at 0. */
  lemma FlooredMinimum(z: real, a: real, b: real, c: real)
    requires z >= 0.0 && (z > 0.0 ==> z <= a && z <= b && z <= c)
    requires z >= a || z >= b || z >= c
    ensures z == Max(0.0, Min(a, Min(b, c)))
  {
  }

  /** A computed size starts from the base size, balance times
      `maxRiskPerTrade` over the unit risk, passed through
      `_adjust_position_size` (which scales it by the four multipliers,
      `AdjustedSizeProduct`). It is zero below the $100 minimum, and otherwise the smallest of the
      adjusted size, a quarter of the balance in units of the entry, and
      the portfolio headroom over |entry - 0.02 * entry|, which is positive
      whenever a size is computed. */
  lemma SizingCaps(cfg: RiskConfig, s: RiskState, req: SizingRequest, market: MarketData)
    requires PositionSizing(cfg, s, req, market).Ok? && PositionSizing(cfg, s, req, market).value.Sized?
    ensures UnitRisk(req) > 0.0
    ensures var z := PositionSizing(cfg, s, req, market).value;
      var entry := req.entryPrice.GetOr(0.0);
      var adjusted := AdjustedSize(cfg, req, market).value;
      entry != 0.0 && Headroom(cfg, s.positions) > 0.0 &&
      (adjusted < 100.0 / entry ==> z.positionSize == 0.0) &&
      (z.positionSize > 0.0 ==>
        z.positionSize <= adjusted && z.positionSize <= cfg.balance * 0.25 / entry &&
        z.positionSize <= Headroom(cfg, s.positions) / Abs(entry - AverageStopDistance(entry)))
    ensures cfg.volatilityAdjustment &&
      AdjustedSize(cfg, req, market) == AdjustPositionSize(cfg, BaseSize(cfg, req), req.confidence.GetOr(0.0), req, market)
    ensures var z := PositionSizing(cfg, s, req, market).value;
      var entry := req.entryPrice.GetOr(0.0);
      var adjusted := AdjustedSize(cfg, req, market).value;
      adjusted >= 100.0 / entry ==> z.positionSize == Max(0.0, LeastCap(cfg, s.positions, adjusted, entry))
  {
    assert RiskChecks(cfg, s, req) == Ok(None) && UnitRisk(req) > 0.0;
    RiskChecksFirstFailing(cfg, s, req);
    assert !Fails(PortfolioGate, cfg, s, req);
    FinalSizeIsLimited(cfg, s, req, market);
    LimitsHold(cfg, s.positions, AdjustedSize(cfg, req, market).value, req.entryPrice.GetOr(0.0));
  }

  /** With volatility adjustment on, `_adjust_position_size` scales the
      base size by the four multipliers. */
  lemma AdjustedSizeProduct(cfg: RiskConfig, base: real, confidence: real, req: SizingRequest, market: MarketData)
    requires cfg.volatilityAdjustment
    ensures AdjustPositionSize(cfg, base, confidence, req, market).Ok?
    ensures var m, v := ConfidenceMultiplier(confidence), VolatilityFactor(market);
      var t, w := TimeMultiplier(req.timeHorizon.GetOr("2-4 часа")), VolumeFactor(market);
      AdjustPositionSize(cfg, base, confidence, req, market).value == base * m * v * t * w
  {
    var m, v := ConfidenceMultiplier(confidence), VolatilityFactor(market);
    var t, w := TimeMultiplier(req.timeHorizon.GetOr("2-4 часа")), VolumeFactor(market);
    assert AdjustPositionSize(cfg, base, confidence, req, market).value == Times(Times(Times(Times(base, m), v), t), w);
    TimesChain(base, m, v, t, w);
  }

  lemma TimesChain(a: real, b: real, c: real, d: real, e: real)
    ensures Times(Times(Times(Times(a, b), c), d), e) == a * b * c * d * e
  {
  }

  /** Sizing rewrites nothing but the statistics, and only the Kelly
      step does that. */
  lemma SizingStateCorrect(cfg: RiskConfig, s: RiskState, req: SizingRequest, market: MarketData)
    ensures var t := SizingState(cfg, s, req, market);
      t.positions == s.positions && t.dailyPnl == s.dailyPnl && t.dailyTrades == s.dailyTrades &&
      t.history == s.history
    ensures |s.history| < 10 ==> SizingState(cfg, s, req, market) == s
    ensures !(PositionSizing(cfg, s, req, market).Ok? && PositionSizing(cfg, s, req, market).value.Sized?) ==>
      SizingState(cfg, s, req, market) == s
  {
  }

  /** Balance 10000, entry 50000, stop 49000, target 51000, confidence
      0.85, ratio 2, a 2% move and $3B volume: the base size 0.2 passes all
      multipliers unchanged, the quarter-balance cap brings it to 0.05 and
      the headroom cap 600 / |50000 - 1000| to 600 / 49000. */
  lemma SizingScenario()
    ensures PositionSizing(DefaultRiskConfig, InitialState,
      SizingRequest(Some(50000.0), Some(49000.0), Some(51000.0), Some(0.85), Some(2.0), None),
      MarketData(Some("BTCUSDT"), Some(50000.0), Some(2.0), Some(3000000000.0)))
      == Ok(Sized(600.0 / 49000.0, 600.0 / 49000.0 * 1000.0, 1000.0 * (600.0 / 49000.0), 1.0, 0.85, 1.0, 0.5))
  {
    var req := ScenarioRequest;
    var market := ScenarioMarket;
    ScenarioPassesChecks();
    ScenarioFinalSize();
    assert UnitRisk(req) == 1000.0;
    assert KellyStep(InitialState).0 == 0.5;
    assert VolatilityFactor(market) == 1.0;
  }

  const ScenarioRequest := SizingRequest(Some(50000.0), Some(49000.0), Some(51000.0), Some(0.85), Some(2.0), None)
  const ScenarioMarket := MarketData(Some("BTCUSDT"), Some(50000.0), Some(2.0), Some(3000000000.0))

  lemma ScenarioPassesChecks()
    ensures RiskChecks(DefaultRiskConfig, InitialState, ScenarioRequest) == Ok(None)
  {
  }

  lemma ScenarioFinalSize()
    ensures UnitRisk(ScenarioRequest) == 1000.0
    ensures FinalSize(DefaultRiskConfig, InitialState, ScenarioRequest, ScenarioMarket) == Ok(600.0 / 49000.0)
  {
    var req := ScenarioRequest;
    assert UnitRisk(req) == 1000.0;
    ScenarioAdjustedSize();
    assert ApplyPositionLimits(DefaultRiskConfig, [], 0.2, 50000.0) == Ok(600.0 / 49000.0) by {
      assert Headroom(DefaultRiskConfig, []) == 600.0;
      assert Abs(50000.0 - AverageStopDistance(50000.0)) == 49000.0;
    }
  }

  lemma ScenarioAdjustedSize()
    ensures UnitRisk(ScenarioRequest) == 1000.0
    ensures AdjustedSize(DefaultRiskConfig, ScenarioRequest, ScenarioMarket) == Ok(0.2)
  {
    assert UnitRisk(ScenarioRequest) == 1000.0;
    assert BaseSize(DefaultRiskConfig, ScenarioRequest) == 0.2;
    TimeMultiplierPrecedence("2-4 часа");
    assert AdjustPositionSize(DefaultRiskConfig, 0.2, 0.85, ScenarioRequest, ScenarioMarket) == Ok(0.2);
  }

  // ---------------------------------------------------------------------
  // Opening and closing positions
  // ---------------------------------------------------------------------

  /** The `position_info` dictionary `add_position` reads; the first seven
      keys are required. */
  datatype PositionRequest = PositionRequest(
    symbol: Option<string>,
    action: Option<TradeAction>,
    size: Option<real>,
    entryPrice: Option<real>,
    stopLoss: Option<real>,
    takeProfit: Option<real>,
    confidence: Option<real>,
    riskAmount: Option<real>,
    potentialProfit: Option<real>)

  /** The position `add_position` builds; none when a required key is
      missing. */
  function PositionOf(info: PositionRequest, now: int): (p: Option<Position>)
    ensures p.Some? <==>
      info.symbol.Some? && info.action.Some? && info.size.Some? && info.entryPrice.Some? &&
      info.stopLoss.Some? && info.takeProfit.Some? && info.confidence.Some?
    ensures p.Some? ==> (p.value.side == LongSide <==> info.action == Some(Buy))
  {
    if info.symbol.None? || info.action.None? || info.size.None? || info.entryPrice.None? ||
       info.stopLoss.None? || info.takeProfit.None? || info.confidence.None? then None
    else
      Some(Position(info.symbol.value, if info.action.value == Buy then LongSide else ShortSide,
        info.size.value, info.entryPrice.value, info.stopLoss.value, info.takeProfit.value, now,
        info.confidence.value, info.riskAmount.GetOr(0.0), info.potentialProfit.GetOr(0.0)))
  }

  /** `add_position`: one more position and one more trade today, or no
      change at all. */
  function AddedState(s: RiskState, info: PositionRequest, now: int): Option<RiskState>
  {
    match PositionOf(info, now)
    case None => None
    case Some(p) => Some(s.(positions := s.positions + [p], dailyTrades := s.dailyTrades + 1))
  }

  /** Opening a position adds exactly its risk amount to the portfolio
      risk and moves nothing else but the trade count. */
  lemma AddedStateRisk(s: RiskState, info: PositionRequest, now: int)
    requires AddedState(s, info, now).Some?
    ensures var t := AddedState(s, info, now).value;
      |t.positions| == |s.positions| + 1 && t.dailyTrades == s.dailyTrades + 1 &&
      t.positions[..|s.positions|] == s.positions &&
      PortfolioRisk(t.positions) == PortfolioRisk(s.positions) + info.riskAmount.GetOr(0.0) &&
      t.dailyPnl == s.dailyPnl && t.history == s.history && t.stats == s.stats
  {
    var t := AddedState(s, info, now).value;
    assert t.positions[..|s.positions|] == s.positions;
  }

  /** The index of the first open position on `symbol`. */
  function FirstOn(ps: seq<Position>, symbol: string): (r: Option<nat>)
    ensures r.Some? ==> (r.value < |ps| && ps[r.value].symbol == symbol &&
      forall j :: 0 <= j < r.value ==> ps[j].symbol != symbol)
    ensures r.None? ==> forall j :: 0 <= j < |ps| ==> ps[j].symbol != symbol
  {
    if ps == [] then None
    else if ps[0].symbol == symbol then Some(0)
    else match FirstOn(ps[1..], symbol)
      case None => None
      case Some(i) => Some(i + 1)
  }

  /** Profit of closing `p` at `price`. */
  function Pnl(p: Position, price: real): real
  {
    if p.side == LongSide then (price - p.entryPrice) * p.size else (p.entryPrice - price) * p.size
  }

  /** A long position gains when the price rose, a short one when it fell. */
  lemma PnlDirection(p: Position, price: real)
    requires p.size > 0.0
    ensures Pnl(p, price) > 0.0 <==> (if p.side == LongSide then price > p.entryPrice else price < p.entryPrice)
    ensures Pnl(p, price) == 0.0 <==> price == p.entryPrice
  {
    var d := if p.side == LongSide then price - p.entryPrice else p.entryPrice - price;
    assert Pnl(p, price) == d * p.size;
    SignOfProduct(d, p.size);
  }

  lemma SignOfProduct(d: real, size: real)
    requires size > 0.0
    ensures d * size > 0.0 <==> d > 0.0
    ensures d * size == 0.0 <==> d == 0.0
  {
    if d > 0.0 {
      assert d * size > 0.0;
    } else if d < 0.0 {
      assert (-d) * size > 0.0;
    }
  }

  /** `close_position`: the trade record and the new state, or nothing
      and no change when no position is open on `symbol`. */
  function CloseOutcome(s: RiskState, symbol: string, closePrice: real, now: int): (Option<TradeRecord>, RiskState)
  {
    match FirstOn(s.positions, symbol)
    case None => (None, s)
    case Some(i) =>
      var p := s.positions[i];
      var record := TradeRecord(p.symbol, p.side, p.entryPrice, closePrice, p.size, Pnl(p, closePrice), now, p.confidence);
      (Some(record), s.(dailyPnl := s.dailyPnl + record.pnl, history := s.history + [record],
                        positions := s.positions[..i] + s.positions[i + 1..]))
  }

  /** Closing removes exactly the first position on the symbol, records
      its profit once in the history and in the day's P&L, and leaves the
      trade count and the statistics alone. */
  lemma CloseOutcomeCorrect(s: RiskState, symbol: string, closePrice: real, now: int)
    ensures var (r, t) := CloseOutcome(s, symbol, closePrice, now);
      (r.None? <==> forall j :: 0 <= j < |s.positions| ==> s.positions[j].symbol != symbol) &&
      (r.None? ==> t == s) &&
      (r.Some? ==>
        exists i :: 0 <= i < |s.positions| && s.positions[i].symbol == symbol &&
          (forall j :: 0 <= j < i ==> s.positions[j].symbol != symbol) &&
          r.value.pnl == Pnl(s.positions[i], closePrice) && r.value.symbol == symbol &&
          multiset(t.positions) + multiset{s.positions[i]} == multiset(s.positions) &&
          PortfolioRisk(t.positions) + s.positions[i].riskAmount == PortfolioRisk(s.positions)) &&
      (r.Some? ==>
        |t.positions| + 1 == |s.positions| && t.history == s.history + [r.value] &&
        t.dailyPnl == s.dailyPnl + r.value.pnl && t.dailyTrades == s.dailyTrades && t.stats == s.stats)
  {
    match FirstOn(s.positions, symbol)
    case None =>
    case Some(i) =>
      var (r, t) := CloseOutcome(s, symbol, closePrice, now);
      var p := s.positions[i];
      assert t.positions == s.positions[..i] + s.positions[i + 1..];
      RemoveAtMultiset(s.positions, i);
      RemoveAtRisk(s.positions, i);
      assert r.value.pnl == Pnl(p, closePrice) && r.value.symbol == symbol;
  }

  /** Removing the position at `i` removes exactly it. */
  lemma RemoveAtMultiset(ps: seq<Position>, i: nat)
    requires i < |ps|
    ensures multiset(ps[..i] + ps[i + 1..]) + multiset{ps[i]} == multiset(ps)
  {
    assert ps == ps[..i] + [ps[i]] + ps[i + 1..];
  }

  /** Removing the position at `i` removes exactly its risk. */
  lemma RemoveAtRisk(ps: seq<Position>, i: nat)
    requires i < |ps|
    ensures PortfolioRisk(ps[..i] + ps[i + 1..]) + ps[i].riskAmount == PortfolioRisk(ps)
  {
    calc {
      PortfolioRisk(ps);
      == { SplitAround(ps, i); }
      PortfolioRisk(ps[..i] + ([ps[i]] + ps[i + 1..]));
      == { PortfolioRiskMiddle(ps[..i], ps[i], ps[i + 1..]); }
      PortfolioRisk(ps[..i] + ps[i + 1..]) + ps[i].riskAmount;
    }
  }

  /** A sequence is its prefix, the element at `i` and its suffix. */
  lemma SplitAround<T>(s: seq<T>, i: nat)
    requires i < |s|
    ensures s == s[..i] + ([s[i]] + s[i + 1..])
  {
    assert s[i..] == [s[i]] + s[i + 1..];
    assert s == s[..i] + s[i..];
  }

  /** A position between two runs adds its own risk to theirs. */
  lemma PortfolioRiskMiddle(front: seq<Position>, p: Position, back: seq<Position>)
    ensures PortfolioRisk(front + ([p] + back)) == PortfolioRisk(front + back) + p.riskAmount
  {
    PortfolioRiskAppend(front, [p] + back);
    PortfolioRiskAppend([p], back);
    PortfolioRiskAppend(front, back);
    PortfolioRiskSingle(p);
  }

  /** One position carries its own risk. */
  lemma PortfolioRiskSingle(p: Position)
    ensures PortfolioRisk([p]) == p.riskAmount
  {
    assert [p][..0] == [];
  }

  // ---------------------------------------------------------------------
  // Portfolio summary
  // ---------------------------------------------------------------------

  datatype Summary = Summary(
    balance: real,
    dailyPnl: real,
    dailyTrades: int,
    openPositions: nat,
    totalRisk: real,
    riskPercentage: real,
    availableRisk: real,
    winRate: real,
    avgWin: real,
    avgLoss: real,
    totalTrades: nat)

  /** `get_portfolio_summary` */
  function SummaryOf(cfg: RiskConfig, s: RiskState): (r: Summary)
    ensures r.availableRisk >= 0.0
    ensures r.availableRisk > 0.0 <==> Headroom(cfg, s.positions) > 0.0
    ensures r.totalRisk + r.availableRisk >= cfg.balance * cfg.maxPortfolioRisk
  {
    var totalRisk := PortfolioRisk(s.positions);
    Summary(cfg.balance, s.dailyPnl, s.dailyTrades, |s.positions|, totalRisk,
      if cfg.balance > 0.0 then totalRisk / cfg.balance * 100.0 else 0.0,
      Max(0.0, cfg.balance * cfg.maxPortfolioRisk - totalRisk),
      s.stats.winRate, s.stats.avgWin, s.stats.avgLoss, |s.history|)
  }

  // ---------------------------------------------------------------------
  // The manager
  // ---------------------------------------------------------------------

  class RiskManager {
    const config: RiskConfig
    var positions: seq<Position>
    var dailyPnl: real
    var dailyTrades: int
    var history: seq<TradeRecord>
    var winRate: real
    var avgWin: real
    var avgLoss: real

    constructor (config: RiskConfig)
      ensures this.config == config && State() == InitialState
    {
      this.config := config;
      positions, dailyPnl, dailyTrades, history := [], 0.0, 0, [];
      winRate, avgWin, avgLoss := 0.0, 0.0, 0.0;
    }

    function State(): RiskState
      reads this
    {
      RiskState(positions, dailyPnl, dailyTrades, history, Stats(winRate, avgWin, avgLoss))
    }

    /** `_calculate_portfolio_risk` */
    method CalculatePortfolioRisk() returns (totalRisk: real)
      ensures totalRisk == PortfolioRisk(positions)
    {
      totalRisk := 0.0;
      for i := 0 to |positions|
        invariant totalRisk == PortfolioRisk(positions[..i])
      {
        assert positions[..i + 1][..i] == positions[..i];
        totalRisk := totalRisk + positions[i].riskAmount;
      }
      assert positions[..|positions|] == positions;
    }

    /** `_update_trade_statistics` */
    method UpdateTradeStatistics()
      modifies this
      ensures State() == old(State()).(stats := UpdatedStats(old(State())))
    {
      if history == [] {
        return;
      }
      var wins := Wins(history);
      var losses := Losses(history);
      winRate := (|wins| as real) / (|history| as real);
      avgWin := if wins != [] then Sum(wins) / (|wins| as real) else 0.0;
      avgLoss := if losses != [] then Sum(losses) / (|losses| as real) else 0.0;
    }

    /** `_calculate_kelly_fraction` */
    method CalculateKellyFraction() returns (kelly: real)
      modifies this
      ensures (kelly, State()) == (KellyStep(old(State())).0, old(State()).(stats := KellyStep(old(State())).1))
    {
      if |history| < 10 {
        return 0.5;
      }
      UpdateTradeStatistics();
      assert Stats(winRate, avgWin, avgLoss) == StatsOf(history);
      if avgLoss == 0.0 || winRate == 0.0 {
        return 0.25;
      }
      var b := avgWin / Abs(avgLoss);
      if b == 0.0 {
        return 0.25;
      }
      kelly := KellyFormula(b, winRate);
      kelly := Max(0.1, Min(0.5, kelly));
    }

    /** `calculate_position_size` */
    method CalculatePositionSize(req: SizingRequest, market: MarketData) returns (r: Result<Sizing>)
      modifies this
      ensures r == PositionSizing(config, old(State()), req, market)
      ensures State() == SizingState(config, old(State()), req, market)
    {
      var entryPrice := req.entryPrice.GetOr(0.0);
      var stopLoss := req.stopLoss.GetOr(0.0);
      var takeProfit := req.takeProfit.GetOr(0.0);
      var confidence := req.confidence.GetOr(0.0);
      var checks := RiskChecks(config, State(), req);
      if checks.Raises? {
        return Raises(checks.fault);
      }
      if checks.value.Some? {
        return Ok(Refused(FailedCheck(checks.value.value)));
      }
      var riskPerUnit := Abs(entryPrice - stopLoss);
      if riskPerUnit <= 0.0 {
        return Ok(Refused(UndefinedUnitRisk));
      }
      assert riskPerUnit == UnitRisk(req);
      var adjusted := AdjustedSize(config, req, market);
      if adjusted.Raises? {
        return Raises(adjusted.fault);
      }
      var finalSize := ApplyPositionLimits(config, positions, adjusted.value, entryPrice);
      assert finalSize == FinalSize(config, State(), req, market);
      if finalSize.Raises? {
        return Raises(finalSize.fault);
      }
      var volatility := VolatilityFactor(market);
      ghost var before := State();
      assert PositionSizing(config, before, req, market) ==
        Ok(SizedResult(finalSize.value, riskPerUnit, Abs(takeProfit - entryPrice), confidence, volatility, KellyStep(before).0));
      var kelly := CalculateKellyFraction();
      r := Ok(SizedResult(finalSize.value, riskPerUnit, Abs(takeProfit - entryPrice), confidence, volatility, kelly));
    }

    /** `add_position` */
    method AddPosition(info: PositionRequest, now: int) returns (added: bool)
      modifies this
      ensures added <==> AddedState(old(State()), info, now).Some?
      ensures added ==> State() == AddedState(old(State()), info, now).value
      ensures !added ==> State() == old(State())
    {
      var position := PositionOf(info, now);
      if position.None? {
        return false;
      }
      positions := positions + [position.value];
      dailyTrades := dailyTrades + 1;
      return true;
    }

    /** `close_position` */
    method ClosePosition(symbol: string, closePrice: real, now: int) returns (record: Option<TradeRecord>)
      modifies this
      ensures (record, State()) == CloseOutcome(old(State()), symbol, closePrice, now)
    {
      for i := 0 to |positions|
        invariant forall j :: 0 <= j < i ==> positions[j].symbol != symbol
        invariant State() == old(State())
      {
        var position := positions[i];
        if position.symbol == symbol {
          assert FirstOn(positions, symbol) == Some(i);
          ghost var before := State();
          var pnl := if position.side == LongSide then (closePrice - position.entryPrice) * position.size
                     else (position.entryPrice - closePrice) * position.size;
          dailyPnl := dailyPnl + pnl;
          var tradeRecord := TradeRecord(position.symbol, position.side, position.entryPrice, closePrice,
                                         position.size, pnl, now, position.confidence);
          history := history + [tradeRecord];
          positions := positions[..i] + positions[i + 1..];
          assert pnl == Pnl(position, closePrice);
          assert CloseOutcome(before, symbol, closePrice, now) == (Some(tradeRecord), State());
          return Some(tradeRecord);
        }
      }
      return None;
    }

    /** `get_portfolio_summary` */
    method GetPortfolioSummary() returns (summary: Summary)
      ensures summary == SummaryOf(config, State())
    {
      var totalRisk := CalculatePortfolioRisk();
      summary := Summary(config.balance, dailyPnl, dailyTrades, |positions|, totalRisk,
        if config.balance > 0.0 then totalRisk / config.balance * 100.0 else 0.0,
        Max(0.0, config.balance * config.maxPortfolioRisk - totalRisk),
        winRate, avgWin, avgLoss, |history|);
    }

    /** `reset_daily_stats` */
    method ResetDailyStats()
      modifies this
      ensures State() == old(State()).(dailyPnl := 0.0, dailyTrades := 0)
    {
      dailyPnl := 0.0;
      dailyTrades := 0;
    }
  }
}
