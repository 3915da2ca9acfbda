/** The validator that repairs a recommendation parsed from the language
    model's answer before anything trades on it. It fills missing fields,
    clamps the confidence, pulls the entry near the market, caps the stop
    distance, enforces a 1:2 risk/reward target and recomputes the ratio,
    all in place on the analysis it was given. */
module AnalysisValidator {
  import opened Market
  import opened Recommendation

  /** The keys `validate_enhanced_analysis` requires, in the order it
      checks them. */
  datatype RequiredField =
    | MarketSentimentField | ConfidenceScoreField | RecommendedActionField
    | EntryStrategyField | RiskManagementField | ReasoningField

  const RequiredFields: seq<RequiredField> := [
    MarketSentimentField, ConfidenceScoreField, RecommendedActionField,
    EntryStrategyField, RiskManagementField, ReasoningField]

  const DefaultReasoning := "Analysis performed with default parameters due to incomplete data"

  /** `get_enhanced_default_value` for the entry strategy. */
  function DefaultEntryStrategy(p: real): EntryStrategy
  {
    EntryStrategy(Some(p), Some("market order"), Some(2.0))
  }

  /** `get_enhanced_default_value` for the risk block. */
  function DefaultRiskPlan(p: real): RiskPlan
  {
    RiskPlan(Some(p * 0.98), Some(p * 1.04), Some(p * 1.08), Some(2.0), Some(2.0))
  }

  /** Insert the default of field `f` when it is missing. */
  function FillField(a: Analysis, f: RequiredField, p: real): Analysis
  {
    a.(
      sentiment := if f == MarketSentimentField && a.sentiment.None? then Some(Neutral) else a.sentiment,
      confidence := if f == ConfidenceScoreField && a.confidence.None? then Some(0.3) else a.confidence,
      action := if f == RecommendedActionField && a.action.None? then Some(Wait) else a.action,
      entry := if f == EntryStrategyField && a.entry.None? then Some(DefaultEntryStrategy(p)) else a.entry,
      risk := if f == RiskManagementField && a.risk.None? then Some(DefaultRiskPlan(p)) else a.risk,
      reasoning := if f == ReasoningField && a.reasoning.None? then Some(Text(DefaultReasoning)) else a.reasoning)
  }

  /** The required-field loop over the fields `fs`, in order. */
  function FillFields(a: Analysis, fs: seq<RequiredField>, p: real): Analysis
  {
    if fs == [] then a else FillField(FillFields(a, fs[..|fs| - 1], p), fs[|fs| - 1], p)
  }

  lemma FillFieldsStep(a: Analysis, fs: seq<RequiredField>, i: nat, p: real)
    requires i < |fs|
    ensures FillFields(a, fs[..i + 1], p) == FillField(FillFields(a, fs[..i], p), fs[i], p)
  {
    assert fs[..i + 1][..i] == fs[..i];
  }

  /** `max(0, min(1, c))` applied only when `c` is outside [0, 1]. */
  function ClampConfidence(c: real): (r: real)
    ensures 0.0 <= r <= 1.0
    ensures 0.0 <= c <= 1.0 ==> r == c
  {
    if 0.0 <= c <= 1.0 then c else Max(0.0, Min(1.0, c))
  }

  /** The confidence step. An absent score reads as 0, which is in range,
      so only a present score is ever clamped. */
  function ClampStep(a: Analysis): Analysis
  {
    match a.confidence
    case None => a
    case Some(c) => a.(confidence := Some(ClampConfidence(c)))
  }

  /** The entry price as first read, before the 5% check: the given one,
      or the current price. */
  function ReadEntry(es: EntryStrategy, p: real): real
  {
    es.price.GetOr(p)
  }

  /** The stored entry: replaced by the current price when it is more than
      5% away from it. */
  function StoredEntry(e: real, p: real): real
  {
    if Abs(e - p) > p * 0.05 then p else e
  }

  /** The entry step. */
  function EntryStep(a: Analysis, p: real): Analysis
  {
    var es := a.entry.GetOr(NoEntryStrategy);
    a.(entry := Some(es.(price := Some(StoredEntry(ReadEntry(es, p), p)))))
  }

  /** The stop: 2% under the price when missing, and moved to 3% of the
      price from the read entry (below for "long", above otherwise) when
      farther away than that. */
  function FixedStop(stop: Option<real>, e: real, p: real, action: Option<Action>): real
  {
    var sl := stop.GetOr(p * 0.98);
    var maxDistance := p * 0.03;
    if Abs(e - sl) > maxDistance then
      (if action == Some(Long) then e - maxDistance else e + maxDistance)
    else sl
  }

  /** The two targets after enforcing a reward of at least twice the risk
      (a missing first target reads as 0). */
  function FixedTargets(tp1: Option<real>, tp2: Option<real>, e: real, risk: real, action: Option<Action>): (Option<real>, Option<real>)
  {
    if action == Some(Long) then
      var minTp1 := e + risk * 2.0;
      if tp1.GetOr(0.0) < minTp1 then (Some(minTp1), Some(minTp1 * 1.5)) else (tp1, tp2)
    else
      var minTp1 := e - risk * 2.0;
      if tp1.GetOr(0.0) > minTp1 then (Some(minTp1), Some(minTp1 / 1.5)) else (tp1, tp2)
  }

  /** Reward over risk, reading a missing first target as the entry. */
  function Ratio(tp1: Option<real>, e: real, risk: real): real
  {
    if risk > 0.0 then Abs(tp1.GetOr(e) - e) / risk else 2.0
  }

  /** The repaired risk block, from the read entry `e`. */
  function FixedRiskPlan(rp: RiskPlan, e: real, p: real, action: Option<Action>): RiskPlan
  {
    var stop := FixedStop(rp.stopLoss, e, p, action);
    var risk := Abs(e - stop);
    var targets := FixedTargets(rp.takeProfit1, rp.takeProfit2, e, risk, action);
    rp.(stopLoss := Some(stop), takeProfit1 := targets.0, takeProfit2 := targets.1,
        riskRewardRatio := Some(Ratio(targets.0, e, risk)))
  }

  /** The risk step, from the read entry `e`. */
  function RiskStep(a: Analysis, e: real, p: real): Analysis
  {
    a.(risk := Some(FixedRiskPlan(a.risk.GetOr(NoRiskPlan), e, p, a.action)))
  }

  /** The metadata step. */
  function StampStep(a: Analysis, market: MarketData, now: int): Analysis
  {
    a.(timestamp := Some(now), analyzer := Some(ClaudeEnhanced), symbol := Some(market.symbol.GetOr("UNKNOWN")))
  }

  /** `validate_enhanced_analysis` as a function of the analysis it is
      given, the market data and the stamping time. */
  function Sanitize(a: Analysis, market: MarketData, now: int): Analysis
  {
    var p := CurrentPrice(market);
    var filled := FillFields(a, RequiredFields, p);
    var e := ReadEntry(filled.entry.GetOr(NoEntryStrategy), p);
    StampStep(RiskStep(EntryStep(ClampStep(filled), p), e, p), market, now)
  }

  /** The analysis dictionary the validator mutates and returns. */
  class AnalysisRecord {
    var sentiment: Option<Sentiment>
    var confidence: Option<real>
    var action: Option<Action>
    var entry: Option<EntryStrategy>
    var risk: Option<RiskPlan>
    var reasoning: Option<Reasoning>
    var context: Option<Context>
    var timestamp: Option<int>
    var analyzer: Option<AnalyzerTag>
    var symbol: Option<string>

    constructor (a: Analysis)
      ensures Value() == a
    {
      sentiment, confidence, action, entry, risk := a.sentiment, a.confidence, a.action, a.entry, a.risk;
      reasoning, context, timestamp, analyzer, symbol := a.reasoning, a.context, a.timestamp, a.analyzer, a.symbol;
    }

    /** The dictionary's current contents. */
    function Value(): Analysis
      reads this
    {
      Analysis(sentiment, confidence, action, entry, risk, reasoning, context, timestamp, analyzer, symbol)
    }

    method Assign(a: Analysis)
      modifies this
      ensures Value() == a
    {
      sentiment, confidence, action, entry, risk := a.sentiment, a.confidence, a.action, a.entry, a.risk;
      reasoning, context, timestamp, analyzer, symbol := a.reasoning, a.context, a.timestamp, a.analyzer, a.symbol;
    }

    /** One iteration of the required-field loop. */
    method FillMissing(f: RequiredField, p: real)
      modifies this
      ensures Value() == FillField(old(Value()), f, p)
    {
      match f
      case MarketSentimentField =>
        if sentiment.None? { sentiment := Some(Neutral); }
      case ConfidenceScoreField =>
        if confidence.None? { confidence := Some(0.3); }
      case RecommendedActionField =>
        if action.None? { action := Some(Wait); }
      case EntryStrategyField =>
        if entry.None? { entry := Some(DefaultEntryStrategy(p)); }
      case RiskManagementField =>
        if risk.None? { risk := Some(DefaultRiskPlan(p)); }
      case ReasoningField =>
        if reasoning.None? { reasoning := Some(Text(DefaultReasoning)); }
    }

    /** `validate_enhanced_analysis`: repairs this analysis in place. */
    method Validate(market: MarketData, now: int)
      modifies this
      ensures Value() == Sanitize(old(Value()), market, now)
    {
      var p := CurrentPrice(market);
      ghost var original := Value();
      for i := 0 to |RequiredFields|
        invariant Value() == FillFields(original, RequiredFields[..i], p)
      {
        FillFieldsStep(original, RequiredFields, i, p);
        FillMissing(RequiredFields[i], p);
      }
      assert RequiredFields[..|RequiredFields|] == RequiredFields;
      ghost var filled := Value();

      ClampConfidenceField();
      var entryPrice := RepairEntry(p);
      assert entryPrice == ReadEntry(filled.entry.GetOr(NoEntryStrategy), p);
      RepairRisk(entryPrice, p);
      ghost var repaired := Value();
      assert repaired == RiskStep(EntryStep(ClampStep(filled), p), entryPrice, p);
      timestamp := Some(now);
      analyzer := Some(ClaudeEnhanced);
      symbol := Some(market.symbol.GetOr("UNKNOWN"));
      assert Value() == StampStep(repaired, market, now);
    }

    /** Lines 30-31: clamp a confidence outside [0, 1]. */
    method ClampConfidenceField()
      modifies this
      ensures Value() == ClampStep(old(Value()))
    {
      var c := confidence.GetOr(0.0);
      if !(0.0 <= c <= 1.0) {
        confidence := Some(Max(0.0, Min(1.0, confidence.GetOr(0.5))));
      }
    }

    /** Lines 34-40: default the entry, then pull it to the price when it
        is more than 5% away. */
    method RepairEntry(p: real) returns (entryPrice: real)
      modifies this
      ensures Value() == EntryStep(old(Value()), p)
      ensures entryPrice == ReadEntry(old(entry).GetOr(NoEntryStrategy), p)
    {
      var es := entry.GetOr(NoEntryStrategy);
      if es.price.None? {
        es := es.(price := Some(p));
      }
      entryPrice := es.price.value;
      if Abs(entryPrice - p) > p * 0.05 {
        es := es.(price := Some(p));
      }
      entry := Some(es);
    }

    /** Lines 43-73, from the entry `entryPrice` read before the repair:
        default and cap the stop, enforce the minimum target and recompute
        the ratio. */
    method RepairRisk(entryPrice: real, p: real)
      modifies this
      ensures Value() == RiskStep(old(Value()), entryPrice, p)
    {
      var rp := risk.GetOr(NoRiskPlan);
      ghost var given := rp;
      rp := RepairStop(rp, entryPrice, p, action);
      var riskAmount := Abs(entryPrice - rp.stopLoss.value);
      rp := RepairTargets(rp, entryPrice, riskAmount, action);
      var reward := Abs(rp.takeProfit1.GetOr(entryPrice) - entryPrice);
      rp := rp.(riskRewardRatio := Some(if riskAmount > 0.0 then reward / riskAmount else 2.0));
      assert rp == FixedRiskPlan(given, entryPrice, p, action);
      risk := Some(rp);
    }
  }

  /** Lines 44-54: default a missing stop to 2% below the price, then
      pull a stop more than 3% of the price away from the entry back to
      that distance on the side of the trade. */
  method RepairStop(rp: RiskPlan, entryPrice: real, p: real, action: Option<Action>) returns (r: RiskPlan)
    ensures r == rp.(stopLoss := Some(FixedStop(rp.stopLoss, entryPrice, p, action)))
  {
    r := rp;
    if r.stopLoss.None? {
      r := r.(stopLoss := Some(p * 0.98));
    }
    var stopLoss := r.stopLoss.value;
    var maxStopDistance := p * 0.03;
    if Abs(entryPrice - stopLoss) > maxStopDistance {
      if action == Some(Long) {
        r := r.(stopLoss := Some(entryPrice - maxStopDistance));
      } else {
        r := r.(stopLoss := Some(entryPrice + maxStopDistance));
      }
    }
  }

  /** Lines 58-69: move a first target closer than twice the risk out to
      that reward, with the second target half as far again beyond it. */
  method RepairTargets(rp: RiskPlan, entryPrice: real, riskAmount: real, action: Option<Action>) returns (r: RiskPlan)
    ensures var targets := FixedTargets(rp.takeProfit1, rp.takeProfit2, entryPrice, riskAmount, action);
      r == rp.(takeProfit1 := targets.0, takeProfit2 := targets.1)
  {
    r := rp;
    var minReward := riskAmount * 2.0;
    if action == Some(Long) {
      var minTp1 := entryPrice + minReward;
      if r.takeProfit1.GetOr(0.0) < minTp1 {
        r := r.(takeProfit1 := Some(minTp1), takeProfit2 := Some(minTp1 * 1.5));
      }
    } else {
      var minTp1 := entryPrice - minReward;
      if r.takeProfit1.GetOr(0.0) > minTp1 {
        r := r.(takeProfit1 := Some(minTp1), takeProfit2 := Some(minTp1 / 1.5));
      }
    }
  }

  // ---------------------------------------------------------------------
  // Properties of the repaired analysis
  // ---------------------------------------------------------------------

  /** The required-field loop over `fs`: each field named in `fs` that was
      missing receives its default, and everything else is kept. */
  lemma {:induction false} FillFieldsValues(a: Analysis, fs: seq<RequiredField>, p: real)
    ensures var r := FillFields(a, fs, p);
      && r.sentiment == (if MarketSentimentField in fs && a.sentiment.None? then Some(Neutral) else a.sentiment)
      && r.confidence == (if ConfidenceScoreField in fs && a.confidence.None? then Some(0.3) else a.confidence)
      && r.action == (if RecommendedActionField in fs && a.action.None? then Some(Wait) else a.action)
      && r.entry == (if EntryStrategyField in fs && a.entry.None? then Some(DefaultEntryStrategy(p)) else a.entry)
      && r.risk == (if RiskManagementField in fs && a.risk.None? then Some(DefaultRiskPlan(p)) else a.risk)
      && r.reasoning == (if ReasoningField in fs && a.reasoning.None? then Some(Text(DefaultReasoning)) else a.reasoning)
      && r.context == a.context && r.timestamp == a.timestamp
      && r.analyzer == a.analyzer && r.symbol == a.symbol
  {
    if fs != [] {
      var init := fs[..|fs| - 1];
      FillFieldsValues(a, init, p);
      assert forall f :: f in fs <==> f in init || f == fs[|fs| - 1];
    }
  }

  /** The loop over the six required fields: present values are kept and
      missing ones receive their documented default. */
  lemma FillRequired(a: Analysis, p: real)
    ensures FillFields(a, RequiredFields, p) == a.(
      sentiment := if a.sentiment.Some? then a.sentiment else Some(Neutral),
      confidence := if a.confidence.Some? then a.confidence else Some(0.3),
      action := if a.action.Some? then a.action else Some(Wait),
      entry := if a.entry.Some? then a.entry else Some(DefaultEntryStrategy(p)),
      risk := if a.risk.Some? then a.risk else Some(DefaultRiskPlan(p)),
      reasoning := if a.reasoning.Some? then a.reasoning else Some(Text(DefaultReasoning)))
  {
    FillFieldsValues(a, RequiredFields, p);
  }

  /** The repaired analysis holds all six required fields, a confidence in
      [0, 1], a stored entry and a stop, and the validator's stamp. */
  lemma SanitizeShape(a: Analysis, market: MarketData, now: int)
    ensures var r := Sanitize(a, market, now);
      && r.sentiment.Some? && r.action.Some? && r.reasoning.Some?
      && r.confidence.Some? && 0.0 <= r.confidence.value <= 1.0
      && r.entry.Some? && r.entry.value.price.Some?
      && r.risk.Some? && r.risk.value.stopLoss.Some? && r.risk.value.riskRewardRatio.Some?
      && r.timestamp == Some(now) && r.analyzer == Some(ClaudeEnhanced)
      && r.symbol == Some(market.symbol.GetOr("UNKNOWN"))
  {
    FillRequired(a, CurrentPrice(market));
  }

  /** A confidence already in [0, 1] is kept; one outside is clamped to
      the nearer bound. */
  lemma SanitizeConfidence(a: Analysis, market: MarketData, now: int)
    ensures var c := a.confidence.GetOr(0.3); var r := Sanitize(a, market, now);
      && (0.0 <= c <= 1.0 ==> r.confidence == Some(c))
      && (c < 0.0 ==> r.confidence == Some(0.0))
      && (c > 1.0 ==> r.confidence == Some(1.0))
  {
    FillRequired(a, CurrentPrice(market));
  }

  /** The entry that is read before any repair (`e` below). */
  function EntryRead(a: Analysis, market: MarketData): real
  {
    ReadEntry(a.entry.GetOr(DefaultEntryStrategy(CurrentPrice(market))), CurrentPrice(market))
  }

  /** For a non-negative price the stored entry is within 5% of it: the
      read entry when it already was, the price itself otherwise. */
  lemma SanitizeEntry(a: Analysis, market: MarketData, now: int)
    requires CurrentPrice(market) >= 0.0
    ensures var p := CurrentPrice(market); var e := EntryRead(a, market);
      var stored := Sanitize(a, market, now).entry.value.price.value;
      && Abs(stored - p) <= p * 0.05
      && (stored == e <==> Abs(e - p) <= p * 0.05 || e == p)
  {
    FillRequired(a, CurrentPrice(market));
  }

  /** The stop lies at most 3% of the price from the read entry; when it
      had to be moved it sits exactly there, below the entry for "long" and
      above it for every other action (including "wait"). */
  lemma SanitizeStop(a: Analysis, market: MarketData, now: int)
    requires CurrentPrice(market) >= 0.0
    ensures var p := CurrentPrice(market); var e := EntryRead(a, market);
      var r := Sanitize(a, market, now); var stop := r.risk.value.stopLoss.value;
      var given := a.risk.GetOr(DefaultRiskPlan(p)).stopLoss.GetOr(p * 0.98);
      && Abs(e - stop) <= p * 0.03
      && (Abs(e - given) <= p * 0.03 ==> stop == given)
      && (Abs(e - given) > p * 0.03 && r.action == Some(Long) ==> stop == e - p * 0.03)
      && (Abs(e - given) > p * 0.03 && r.action != Some(Long) ==> stop == e + p * 0.03)
  {
    FillRequired(a, CurrentPrice(market));
  }

  /** When the entry was not replaced, the stored entry and the stop are
      at most 3% of the price apart. */
  lemma StopNearStoredEntry(a: Analysis, market: MarketData, now: int)
    requires CurrentPrice(market) >= 0.0
    requires Abs(EntryRead(a, market) - CurrentPrice(market)) <= CurrentPrice(market) * 0.05
    ensures var r := Sanitize(a, market, now);
      Abs(r.entry.value.price.value - r.risk.value.stopLoss.value) <= CurrentPrice(market) * 0.03
  {
    SanitizeEntry(a, market, now);
    SanitizeStop(a, market, now);
  }

  /** The targets respect a reward of at least twice the risk measured
      from the read entry: above it for "long", below it for any other
      action whenever a first target exists. The second target is
      rewritten only together with the first. */
  lemma SanitizeTargets(a: Analysis, market: MarketData, now: int)
    ensures var p := CurrentPrice(market); var e := EntryRead(a, market);
      var r := Sanitize(a, market, now); var rp := r.risk.value;
      var risk := Abs(e - rp.stopLoss.value);
      var given := a.risk.GetOr(DefaultRiskPlan(p));
      TargetsRespectRisk(given.takeProfit1, given.takeProfit2, rp.takeProfit1, rp.takeProfit2, e, risk, r.action)
  {
    var p := CurrentPrice(market);
    SanitizeRisk(a, market, now);
    var r := Sanitize(a, market, now);
    var e := EntryRead(a, market);
    var given := a.risk.GetOr(DefaultRiskPlan(p));
    var stop := FixedStop(given.stopLoss, e, p, r.action);
    FixedTargetsRespectRisk(given.takeProfit1, given.takeProfit2, e, Abs(e - stop), r.action);
  }

  /** The repaired risk block is the given one (or the default) repaired
      from the read entry. */
  lemma SanitizeRisk(a: Analysis, market: MarketData, now: int)
    ensures var p := CurrentPrice(market); var r := Sanitize(a, market, now);
      r.risk == Some(FixedRiskPlan(a.risk.GetOr(DefaultRiskPlan(p)), EntryRead(a, market), p, r.action))
  {
    FillRequired(a, CurrentPrice(market));
  }

  /** The targets `tp1`, `tp2` obtained from `g1`, `g2` keep a reward of at
      least twice `risk` from `e` whenever a first target exists: above the
      entry for "long", below it for any other action. A first target stays
      missing only if it was missing and the minimum target is on the
      wrong side of 0 (at or below 0 for "long", at or above 0 otherwise),
      because a missing target reads as 0. The second target is rewritten
      exactly when the first is, to 1.5 times it ("long") or to two thirds
      of it (otherwise). */
  ghost predicate TargetsRespectRisk(g1: Option<real>, g2: Option<real>, tp1: Option<real>, tp2: Option<real>,
                                     e: real, risk: real, action: Option<Action>)
  {
    && (action == Some(Long) && tp1.Some? ==> tp1.value >= e + 2.0 * risk)
    && (action != Some(Long) && tp1.Some? ==> tp1.value <= e - 2.0 * risk)
    && (tp1.None? <==> g1.None? && (if action == Some(Long) then e + 2.0 * risk <= 0.0 else e - 2.0 * risk >= 0.0))
    && (tp1 == g1 ==> tp2 == g2)
    && (tp1 != g1 ==> tp1.Some? && tp2 == Some(if action == Some(Long) then tp1.value * 1.5 else tp1.value / 1.5))
  }

  lemma FixedTargetsRespectRisk(tp1: Option<real>, tp2: Option<real>, e: real, risk: real, action: Option<Action>)
    ensures var t := FixedTargets(tp1, tp2, e, risk, action);
      TargetsRespectRisk(tp1, tp2, t.0, t.1, e, risk, action)
  {
  }

  /** Division facts for the ratio. */
  lemma RatioAtLeastTwo(reward: real, risk: real)
    requires risk > 0.0 && reward >= 2.0 * risk
    ensures reward / risk >= 2.0
  {
    var q := reward / risk;
    assert q * risk == reward;
    assert (q - 2.0) * risk >= 0.0;
  }

  /** The recomputed ratio is 2.0 without risk, and at least 2 with risk
      whenever a first target exists. */
  lemma SanitizeRatio(a: Analysis, market: MarketData, now: int)
    ensures var e := EntryRead(a, market);
      var rp := Sanitize(a, market, now).risk.value;
      var risk := Abs(e - rp.stopLoss.value);
      && (risk == 0.0 ==> rp.riskRewardRatio == Some(2.0))
      && (risk > 0.0 && rp.takeProfit1.Some? ==> rp.riskRewardRatio.value >= 2.0)
  {
    var e := EntryRead(a, market);
    var rp := Sanitize(a, market, now).risk.value;
    var risk := Abs(e - rp.stopLoss.value);
    SanitizeTargets(a, market, now);
    FillRequired(a, CurrentPrice(market));
    if risk > 0.0 && rp.takeProfit1.Some? {
      assert Abs(rp.takeProfit1.value - e) >= 2.0 * risk;
      RatioAtLeastTwo(Abs(rp.takeProfit1.value - e), risk);
    }
  }

  /** The ratio is not always at least 2: a short whose risk block has no
      first target below the minimum keeps that target missing, so the
      reward reads as 0 and the stored ratio is 0. */
  lemma ShortWithoutTargetHasZeroRatio()
    ensures var market := MarketData(None, Some(100.0), None, None);
      var a := EmptyAnalysis.(
        action := Some(Short),
        entry := Some(EntryStrategy(Some(100.0), None, None)),
        risk := Some(RiskPlan(Some(102.0), None, None, None, None)));
      var r := Sanitize(a, market, 0);
      r.risk.value.takeProfit1.None? && r.risk.value.riskRewardRatio == Some(0.0)
  {
    var market := MarketData(None, Some(100.0), None, None);
    var a := EmptyAnalysis.(
      action := Some(Short),
      entry := Some(EntryStrategy(Some(100.0), None, None)),
      risk := Some(RiskPlan(Some(102.0), None, None, None, None)));
    FillRequired(a, 100.0);
  }

  /** Repairing the stop is a no-op on a stop within the 3% cap. */
  lemma FixedStopStable(stop: Option<real>, e: real, p: real, action: Option<Action>)
    requires p >= 0.0
    ensures var s := FixedStop(stop, e, p, action); Abs(e - s) <= p * 0.03
    ensures var s := FixedStop(stop, e, p, action); FixedStop(Some(s), e, p, action) == s
  {
  }

  /** Enforcing the minimum target twice is enforcing it once. */
  lemma FixedTargetsStable(tp1: Option<real>, tp2: Option<real>, e: real, risk: real, action: Option<Action>)
    ensures var t := FixedTargets(tp1, tp2, e, risk, action);
      FixedTargets(t.0, t.1, e, risk, action) == t
  {
  }

  /** The risk repair is idempotent for a fixed read entry. */
  lemma FixedRiskPlanStable(rp: RiskPlan, e: real, p: real, action: Option<Action>)
    requires p >= 0.0
    ensures var r := FixedRiskPlan(rp, e, p, action); FixedRiskPlan(r, e, p, action) == r
  {
    var stop := FixedStop(rp.stopLoss, e, p, action);
    FixedStopStable(rp.stopLoss, e, p, action);
    var risk := Abs(e - stop);
    FixedTargetsStable(rp.takeProfit1, rp.takeProfit2, e, risk, action);
  }

  /** Validating an already validated analysis whose entry was near the
      price changes nothing but the stamp. */
  lemma SanitizeIdempotent(a: Analysis, market: MarketData, t1: int, t2: int)
    requires CurrentPrice(market) >= 0.0
    requires Abs(EntryRead(a, market) - CurrentPrice(market)) <= CurrentPrice(market) * 0.05
    ensures Sanitize(Sanitize(a, market, t1), market, t2) == Sanitize(a, market, t2)
  {
    var p := CurrentPrice(market);
    var filled := FillFields(a, RequiredFields, p);
    FillRequired(a, p);
    var e := ReadEntry(filled.entry.GetOr(NoEntryStrategy), p);
    var repaired := RiskStep(EntryStep(ClampStep(filled), p), e, p);
    var r1 := StampStep(repaired, market, t1);
    FillRequired(r1, p);
    assert FillFields(r1, RequiredFields, p) == r1;
    assert ReadEntry(r1.entry.GetOr(NoEntryStrategy), p) == e;
    assert ClampStep(r1) == r1;
    assert EntryStep(r1, p) == r1;
    FixedRiskPlanStable(filled.risk.GetOr(NoRiskPlan), e, p, filled.action);
    assert RiskStep(r1, e, p) == r1;
  }
}
