# Trading AI bot: analysis, validation and risk core

This project models the decision core of a crypto trading bot in Dafny.
The bot computes technical indicators from candles (RSI, MACD, Bollinger
bands, VWAP and a volume profile, support and resistance, multi-timeframe
trend). It builds a trade recommendation with an analyzer. Two analyzers
are modelled: the rule-based mock analyzer and the fallback analyzer. A
validator repairs and clamps the recommendation's fields.

A trading agent then screens the recommendation. It asks a risk manager
to gate and size the trade, and turns an allowed size into a buy or sell
decision. The risk manager keeps the state that sizing depends on:

- the open positions;
- the day's profit and loss and the day's trade count;
- the closed-trade history and the win/loss statistics behind its Kelly
  fraction.

A data validator checks historical candles for four kinds of problem:
duplicate timestamps, time gaps, malformed prices and anomalous volumes.

The project has one module per source file:

| module | file | models |
|---|---|---|
| `Market` | `market.dfy` | Candles, market data, `Option`/`Result`, the two exceptions the source can raise (`ZeroDivision`, `UnboundVariable`), sums. |
| `TechnicalAnalysis` | `technical_analysis.dfy` | `src/trading_ai_bot/tools/technical_analysis/tool.py` |
| `Recommendation` | `recommendation.dfy` | The analysis dictionary that the analyzers, the validator and the agent share. |
| `MockAnalyzer` | `mock_analyzer.dfy` | `src/trading_ai_bot/tools/mock_analyzer/tool.py` |
| `AnalysisValidator` | `analysis_validator.dfy` | `src/trading_ai_bot/tools/analysis_validator/tool.py` |
| `DataValidator` | `data_validator.dfy` | `src/trading_ai_bot/tools/historical_data/data_validator.py` |
| `Risk` | `risk_manager.dfy` | `src/trading_ai_bot/core/risk_manager.py` |
| `Trading` | `trading_agent.dfy` | `make_trading_decision` and `_adapt_analysis_for_risk_manager` of `src/trading_ai_bot/core/trading_agent.py` |

## How the model is built

**Dictionaries and missing keys.** The source passes dictionaries in
which any key may be missing, and reads them with `.get(key, default)`.
The model uses datatypes whose fields are `Option`s, and `GetOr` supplies
the source's default at each read. The per-timeframe candle dictionary
is a sequence of (name, candles) pairs in insertion order, with the
distinct keys a dictionary guarantees (`TechnicalAnalysis.DistinctNames`).

**Exceptions.** Where the source raises, the model returns a
`Result.Raises`. This covers:

- a division by a zero balance, a zero entry price or a zero previous
  close;
- a zero support or resistance level in `TechnicalAnalysis.LevelsAround`,
  which divides by the level;
- a zero close five candles back in `TechnicalAnalysis.SeriesTrend`,
  which divides by that close;
- the `volatility_adjustment = False` path, which reads a never-assigned
  name.

**Objects updated in place.** The risk manager and the validator's
analysis dictionary are changed in place, so they are classes:

- `Risk.RiskManager` has one field per attribute that its methods update;
- `AnalysisValidator.AnalysisRecord` holds the analysis that the validator
  edits step by step.

Each method is specified by a function of the old state. Where the source
works in a loop, the model has a method with a loop proved against a
function of the same inputs. Those functions are the portfolio risk, the
VWAP, the level volumes, the support and resistance scan, the timeframe
scan and the four data checks.

## Model

| member | source | states |
|---|---|---|
| TechnicalAnalysis.Rsi | src/trading_ai_bot/tools/technical_analysis/tool.py:19-45 | RSI is 50 with fewer than period+1 prices and always lies in [0, 100]; with enough prices it is 100 when the average loss is 0, and otherwise 100·gain/(gain + loss) of the average gain and loss over the last `period` deltas |
| TechnicalAnalysis.AverageGain | src/trading_ai_bot/tools/technical_analysis/tool.py:33-37 | the mean of the last `period` gains is never negative |
| TechnicalAnalysis.AverageLoss | src/trading_ai_bot/tools/technical_analysis/tool.py:33-38 | the mean of the last `period` losses is never negative |
| TechnicalAnalysis.RsiFormulaShare | src/trading_ai_bot/tools/technical_analysis/tool.py:43-44 | 100 - 100/(1 + gain/loss) equals the gain's share 100·gain/(gain + loss) |
| TechnicalAnalysis.RsiFormulaBounds | src/trading_ai_bot/tools/technical_analysis/tool.py:43-45 | 100 - 100/(1+rs) lies in [0, 100) for a non-negative gain and a positive loss average |
| TechnicalAnalysis.RsiHundredIff | src/trading_ai_bot/tools/technical_analysis/tool.py:33-41 | RSI is exactly 100 iff no delta in the last `period` deltas is negative |
| TechnicalAnalysis.CalculateMacd | src/trading_ai_bot/tools/technical_analysis/tool.py:47-74 | zeros below 26 prices; otherwise the given EMA lines; the histogram is always macd - signal |
| TechnicalAnalysis.BollingerBands | src/trading_ai_bot/tools/technical_analysis/tool.py:76-124 | short input gives ±2% of the last price with position 0.5; otherwise the middle band is the mean of the last `period` prices, the bands lie `std·stdDev` above and below it, position times width equals price minus lower band, zero width gives 0.5, and the relative width is (upper − lower)/middle, or 0 when the middle band is not positive |
| TechnicalAnalysis.BandPositionRange | src/trading_ai_bot/tools/technical_analysis/tool.py:114-116 | with a positive width, position is in [0, 1] iff the price lies within the bands, 0 exactly at the lower band, 1 exactly at the upper |
| TechnicalAnalysis.VwapWithinTypicalRange | src/trading_ai_bot/tools/technical_analysis/tool.py:139-149 | with non-negative volumes and a positive total, VWAP lies between any bounds on the typical prices |
| TechnicalAnalysis.AccumulateVwap | src/trading_ai_bot/tools/technical_analysis/tool.py:140-149 | the accumulating loop yields the VWAP of the candles |
| TechnicalAnalysis.VolumeTrendOf | src/trading_ai_bot/tools/technical_analysis/tool.py:151-164 | insufficient data iff fewer than 20 candles; otherwise increasing iff ratio > 1.3, decreasing iff < 0.7, stable iff in between |
| TechnicalAnalysis.RoundHalfEven | src/trading_ai_bot/tools/technical_analysis/tool.py:169 | the rounded level lies within 0.5 of its argument |
| TechnicalAnalysis.AccumulateLevels | src/trading_ai_bot/tools/technical_analysis/tool.py:167-172 | the bucketing loop yields the per-level volume map and first-seen order |
| TechnicalAnalysis.SortByVolumeCorrect | src/trading_ai_bot/tools/technical_analysis/tool.py:175 | sorting the levels by volume gives a distinct, descending-by-volume order |
| TechnicalAnalysis.TopNodesCorrect | src/trading_ai_bot/tools/technical_analysis/tool.py:174-176 | at most three distinct nodes, in descending volume, and no level left out has more volume than a chosen one |
| TechnicalAnalysis.CalculateVolumeProfile | src/trading_ai_bot/tools/technical_analysis/tool.py:126-183 | equals the profile function; empty input gives VWAP 0, neutral trend, no nodes; never more than three nodes |
| TechnicalAnalysis.PeaksIff | src/trading_ai_bot/tools/technical_analysis/tool.py:211-214 | a value is a resistance level iff it is a strict local maximum of the highs over two neighbours each side |
| TechnicalAnalysis.TroughsIff | src/trading_ai_bot/tools/technical_analysis/tool.py:216-218 | a value is a support level iff it is a strict local minimum of the lows over two neighbours each side |
| TechnicalAnalysis.ScanLevels | src/trading_ai_bot/tools/technical_analysis/tool.py:211-218 | the scanning loop yields exactly the peaks and troughs |
| TechnicalAnalysis.MinAbove | src/trading_ai_bot/tools/technical_analysis/tool.py:223 | the nearest level above the price, or none iff no level is above it |
| TechnicalAnalysis.MaxBelow | src/trading_ai_bot/tools/technical_analysis/tool.py:226 | the nearest level below the price, or none iff no level is below it |
| TechnicalAnalysis.CountNear | src/trading_ai_bot/tools/technical_analysis/tool.py:229-230 | the test count is the number of positions whose value is within 0.5% of the level (so 0 iff none is and the full length iff all are) |
| TechnicalAnalysis.StrengthOf | src/trading_ai_bot/tools/technical_analysis/tool.py:232-237 | strong iff either count reaches 3, medium iff neither does and one is 2, weak iff both are below 2 |
| TechnicalAnalysis.LevelsAroundBracket | src/trading_ai_bot/tools/technical_analysis/tool.py:220-230 | with a positive price and positive troughs, support < price < resistance and both test counts exist |
| TechnicalAnalysis.LevelsBracketPrice | src/trading_ai_bot/tools/technical_analysis/tool.py:185-245 | with 20 or more candles, a positive last close and positive lows, the computation succeeds and 0 < support < close < resistance |
| TechnicalAnalysis.CalculateSupportResistance | src/trading_ai_bot/tools/technical_analysis/tool.py:185-245 | equals the support/resistance function, including its division-by-zero results |
| TechnicalAnalysis.SeriesTrend | src/trading_ai_bot/tools/technical_analysis/tool.py:263-287 | raises iff the close five back is 0; SMA5 and SMA10 are the means of the last 5 and 10 closes; bullish iff SMA5 > 1.002·SMA10; bearish iff not bullish and SMA5 < 0.998·SMA10; the strength classifies the relative change from the close five back to the last close |
| TechnicalAnalysis.MoveStrength | src/trading_ai_bot/tools/technical_analysis/tool.py:278-287 | strong iff the absolute change exceeds 2%, weak iff it is at most 1% |
| TechnicalAnalysis.AgreementIff | src/trading_ai_bot/tools/technical_analysis/tool.py:308 | trend agreement holds iff there is at least one trend and all trends equal the first |
| TechnicalAnalysis.CountMultiset | src/trading_ai_bot/tools/technical_analysis/tool.py:298-301 | `trends.count(t)` is the multiplicity of `t` among the trends |
| TechnicalAnalysis.OverallOfMajority | src/trading_ai_bot/tools/technical_analysis/tool.py:296-303 | the overall trend depends only on how many timeframes lean each way, not on their order; it is mixed iff bullish and bearish counts tie; exchanging the bullish and bearish counts exchanges a bullish verdict for a bearish one |
| TechnicalAnalysis.AgreedOverall | src/trading_ai_bot/tools/technical_analysis/tool.py:296-303 | when all timeframes agree, the overall trend is that trend (sideways gives mixed) |
| TechnicalAnalysis.AnalyzeMultipleTimeframes | src/trading_ai_bot/tools/technical_analysis/tool.py:247-309 | the loop over timeframes equals the multi-timeframe function, skipping short series and propagating a raise |
| TechnicalAnalysis.TimeframeEntriesDistinct | src/trading_ai_bot/tools/technical_analysis/tool.py:247-275 | every entry is named after a given timeframe and, the timeframes being dictionary keys, no name is entered twice |
| TechnicalAnalysis.RsiSignalOf | src/trading_ai_bot/tools/technical_analysis/tool.py:353-358 | overbought iff RSI > 70, oversold iff RSI < 30 |
| TechnicalAnalysis.MacdSignalOfCalculated | src/trading_ai_bot/tools/technical_analysis/tool.py:360-363 | on a computed MACD the label is never "strengthening", "weakening" iff the histogram is 0, bullish iff positive |
| TechnicalAnalysis.BandZoneOf | src/trading_ai_bot/tools/technical_analysis/tool.py:350 | upper iff position > 0.8, lower iff position < 0.2 |
| TechnicalAnalysis.ComprehensiveAnalysisOf | src/trading_ai_bot/tools/technical_analysis/tool.py:311-385 | no snapshot iff no candles; it raises iff there are candles and the support/resistance or the multi-timeframe analysis raises; a snapshot has RSI in [0, 100], the last close as price, "above" iff price > VWAP, the unknown multi-timeframe block without timeframe data and the multi-timeframe analysis with it, the support/resistance levels of the candles, and each indicator (RSI(14), MACD, Bollinger(20, 2), volume profile) of the candles with the signal or zone derived from it |
| TechnicalAnalysis.ComprehensiveAnalysis | src/trading_ai_bot/tools/technical_analysis/tool.py:311-385 | the method equals the snapshot function |
| TechnicalAnalysis.SnapshotOf | src/trading_ai_bot/tools/technical_analysis/tool.py:328-385 | the assembled snapshot has RSI in [0, 100], the last close as current price, "above" exactly when that price exceeds the VWAP, and the timeframe summary and levels it was given; its RSI is RSI(14) of the closes with its signal, its MACD that of the closes with its signal, its bands Bollinger(20, 2) of the closes with their zone, and its volume profile that of the candles |
| MockAnalyzer.CreateEnhancedMockAnalysis | src/trading_ai_bot/tools/mock_analyzer/tool.py:13-149 | every core field is present, the analyzer is the mock, the symbol defaults to UNKNOWN, and the entry is the current price |
| MockAnalyzer.CreateFallbackAnalysis | src/trading_ai_bot/tools/mock_analyzer/tool.py:151-194 | neutral, wait, confidence 0.2, ratio 2.0, analyzer fallback |
| MockAnalyzer.VerdictIff | src/trading_ai_bot/tools/mock_analyzer/tool.py:61-73 | long iff bullish signals exceed bearish by more than one, short symmetrically, wait iff confidence 0.4; sentiment follows the action |
| MockAnalyzer.DirectionalConfidence | src/trading_ai_bot/tools/mock_analyzer/tool.py:65-69 | a directional call has confidence in [0.7, 0.75], capped at 0.75 from a margin of three |
| MockAnalyzer.TrendNeedsMacd | src/trading_ai_bot/tools/mock_analyzer/tool.py:28-73 | with neutral RSI, bands and volume, a multi-timeframe trend yields a call only when the MACD agrees, and then with confidence 0.75 |
| MockAnalyzer.BasicVerdictIff | src/trading_ai_bot/tools/mock_analyzer/tool.py:75-88 | without indicators: long iff change > 3, short iff change < -3, confidence 0.6 for a call and 0.4 for wait |
| MockAnalyzer.LadderOrdered | src/trading_ai_bot/tools/mock_analyzer/tool.py:90-105 | for a positive price, targets beyond the entry and the stop on the other side, in the direction of the action |
| MockAnalyzer.LadderRatioIsTwo | src/trading_ai_bot/tools/mock_analyzer/tool.py:107-109 | the computed risk/reward ratio is 2 for every action and price |
| MockAnalyzer.MockAnalysisPlan | src/trading_ai_bot/tools/mock_analyzer/tool.py:90-126 | ratio 2.0, max loss 2%, size 3% iff confidence > 0.6, long exactly on the verdict rule, confidence in [0.4, 0.75] |
| MockAnalyzer.FallbackPlan | src/trading_ai_bot/tools/mock_analyzer/tool.py:154-171 | the entry block is the current price with 1%, stop below and targets above it, confidence under the 0.5 trading threshold |
| AnalysisValidator.ClampConfidence | src/trading_ai_bot/tools/analysis_validator/tool.py:30-31 | the result lies in [0, 1] and equals an in-range input; the confidence step applies it to a present score |
| AnalysisValidator.AnalysisRecord.FillMissing | src/trading_ai_bot/tools/analysis_validator/tool.py:24-27 | fills one missing required field with its default |
| AnalysisValidator.AnalysisRecord.ClampConfidenceField | src/trading_ai_bot/tools/analysis_validator/tool.py:29-31 | clamps the stored confidence |
| AnalysisValidator.AnalysisRecord.RepairEntry | src/trading_ai_bot/tools/analysis_validator/tool.py:33-40 | fills and bounds the entry price, and returns the entry as first read |
| AnalysisValidator.AnalysisRecord.RepairRisk | src/trading_ai_bot/tools/analysis_validator/tool.py:42-73 | repairs the stop, the targets and the ratio from the entry as first read |
| AnalysisValidator.RepairStop | src/trading_ai_bot/tools/analysis_validator/tool.py:44-54 | a missing stop becomes 2% below the price, and a stop more than 3% of the price from the entry moves to exactly that distance, below the entry for a long and above it otherwise; nothing else in the risk block changes |
| AnalysisValidator.RepairTargets | src/trading_ai_bot/tools/analysis_validator/tool.py:58-69 | a first target short of twice the risk (a missing one reads as 0) moves to that reward, with the second target at 1.5 times it for a long or divided by 1.5 otherwise; only the two targets change |
| AnalysisValidator.AnalysisRecord.Validate | src/trading_ai_bot/tools/analysis_validator/tool.py:13-80 | the in-place validation leaves the sanitized analysis |
| AnalysisValidator.FillFieldsValues | src/trading_ai_bot/tools/analysis_validator/tool.py:19-27 | exactly the listed missing fields receive their defaults; every other field is unchanged |
| AnalysisValidator.FillRequired | src/trading_ai_bot/tools/analysis_validator/tool.py:82-102 | the six required fields are filled with the default values |
| AnalysisValidator.SanitizeShape | src/trading_ai_bot/tools/analysis_validator/tool.py:13-80 | after validation all required fields, the entry, the stop and the ratio are present, confidence is in [0, 1], and the metadata is stamped |
| AnalysisValidator.SanitizeConfidence | src/trading_ai_bot/tools/analysis_validator/tool.py:29-31 | an in-range confidence is kept, a negative one becomes 0, one above 1 becomes 1 |
| AnalysisValidator.SanitizeEntry | src/trading_ai_bot/tools/analysis_validator/tool.py:33-40 | the stored entry is within 5% of the current price and equals the given entry iff that one was within 5% |
| AnalysisValidator.SanitizeStop | src/trading_ai_bot/tools/analysis_validator/tool.py:42-54 | the stop lies within 3% of the price from the entry as first read; a near stop is kept; a far one moves to entry ∓ 3% by action |
| AnalysisValidator.StopNearStoredEntry | src/trading_ai_bot/tools/analysis_validator/tool.py:38-54 | when the entry was not replaced, the stored entry and stop are at most 3% of the price apart |
| AnalysisValidator.SanitizeTargets | src/trading_ai_bot/tools/analysis_validator/tool.py:56-69 | the first target is at least twice the risk beyond the entry in the trade's direction, or else kept as given |
| AnalysisValidator.FixedTargetsRespectRisk | src/trading_ai_bot/tools/analysis_validator/tool.py:56-69 | the target repair alone establishes the 1:2 reward rule |
| AnalysisValidator.SanitizeRatio | src/trading_ai_bot/tools/analysis_validator/tool.py:71-73 | ratio 2.0 at zero risk; otherwise at least 2 whenever a first target is present |
| AnalysisValidator.ShortWithoutTargetHasZeroRatio | src/trading_ai_bot/tools/analysis_validator/tool.py:65-73 | a short at 100 with its stop at 102 and no first target keeps the target missing and gets ratio 0 |
| AnalysisValidator.FixedStopStable | src/trading_ai_bot/tools/analysis_validator/tool.py:47-54 | the repaired stop lies within 3% and repairing it again changes nothing |
| AnalysisValidator.FixedTargetsStable | src/trading_ai_bot/tools/analysis_validator/tool.py:56-69 | repairing the targets again changes nothing |
| AnalysisValidator.FixedRiskPlanStable | src/trading_ai_bot/tools/analysis_validator/tool.py:42-73 | repairing the risk block again changes nothing |
| AnalysisValidator.SanitizeIdempotent | src/trading_ai_bot/tools/analysis_validator/tool.py:13-80 | when the entry is within 5%, validating twice equals validating once |
| DataValidator.SortBy | src/trading_ai_bot/tools/historical_data/data_validator.py:135 | sorting by a key gives a sorted permutation of the input |
| DataValidator.Duplicates | src/trading_ai_bot/tools/historical_data/data_validator.py:87-111 | never more duplicates than candles |
| DataValidator.DuplicatesCorrect | src/trading_ai_bot/tools/historical_data/data_validator.py:97-111 | a candle is reported iff an earlier one has its timestamp, with its index and data, in increasing index order |
| DataValidator.CheckDuplicates | src/trading_ai_bot/tools/historical_data/data_validator.py:87-111 | the seen-set loop reports exactly the duplicates |
| DataValidator.IntervalSeconds | src/trading_ai_bot/tools/historical_data/data_validator.py:244-262 | a known interval is a positive whole number of minutes |
| DataValidator.IntervalSecondsKnown | src/trading_ai_bot/tools/historical_data/data_validator.py:254-262 | an interval is known iff it is 1m, 5m, 15m, 1h, 4h or 1d |
| DataValidator.GapsInCorrect | src/trading_ai_bot/tools/historical_data/data_validator.py:137-151 | a gap is reported iff consecutive candles are more than 1.5 intervals apart |
| DataValidator.GapMissingPeriods | src/trading_ai_bot/tools/historical_data/data_validator.py:143-150 | a gap has a positive duration and a non-negative count of missing periods |
| DataValidator.SortByTimestamp | src/trading_ai_bot/tools/historical_data/data_validator.py:134-135 | the gap check works on a time-ordered permutation of the data |
| DataValidator.GapsInPeriods | src/trading_ai_bot/tools/historical_data/data_validator.py:137-151 | every gap records the interval, the actual duration and duration/interval - 1 missing periods |
| DataValidator.TimeGapsPeriods | src/trading_ai_bot/tools/historical_data/data_validator.py:113-153 | every reported gap uses the interval's length and has those fields |
| DataValidator.NoTimeGaps | src/trading_ai_bot/tools/historical_data/data_validator.py:124-130 | fewer than two candles or an unknown interval give no gaps |
| DataValidator.CheckTimeGaps | src/trading_ai_bot/tools/historical_data/data_validator.py:113-153 | the loop reports exactly the gaps |
| DataValidator.OhlcIssuesIff | src/trading_ai_bot/tools/historical_data/data_validator.py:169-183 | no OHLC issue iff the prices are positive and high/low enclose open and close; high below low implies one of the body errors |
| DataValidator.JumpIssues | src/trading_ai_bot/tools/historical_data/data_validator.py:185-189 | the change check raises iff the previous close is 0 |
| DataValidator.PriceValidityRaisesIff | src/trading_ai_bot/tools/historical_data/data_validator.py:155-199 | the price check raises a division by zero iff some previous close is 0 |
| DataValidator.PriceValidityCorrect | src/trading_ai_bot/tools/historical_data/data_validator.py:155-199 | every candle with an issue is reported once, with its index, data and issue list, in index order |
| DataValidator.CheckPriceValidity | src/trading_ai_bot/tools/historical_data/data_validator.py:155-199 | the loop equals the price check, including the raise |
| DataValidator.PositiveVolumes | src/trading_ai_bot/tools/historical_data/data_validator.py:217 | exactly the positive volumes are collected |
| DataValidator.PositiveVolumesCounts | src/trading_ai_bot/tools/historical_data/data_validator.py:217 | each positive volume is collected exactly as often as it occurs among the candles, and nothing else is |
| DataValidator.PositiveVolumesConcat | src/trading_ai_bot/tools/historical_data/data_validator.py:217 | the collection keeps input order: the positive volumes of two runs of candles are the first run's followed by the second's |
| DataValidator.MedianVolumeExists | src/trading_ai_bot/tools/historical_data/data_validator.py:217-221 | no median iff no volume is positive; the median is one of the positive volumes |
| DataValidator.MedianVolumeSplits | src/trading_ai_bot/tools/historical_data/data_validator.py:220-221 | the median splits the sorted positive volumes at the middle index |
| DataValidator.FlagVolumesCorrect | src/trading_ai_bot/tools/historical_data/data_validator.py:223-240 | a candle is flagged iff its volume is negative or above 100 medians, with its index and issues, in order |
| DataValidator.CheckVolumeValidity | src/trading_ai_bot/tools/historical_data/data_validator.py:201-242 | the loop flags exactly the candles of the volume check, which flags none when no volume is positive |
| DataValidator.ValidationOf | src/trading_ai_bot/tools/historical_data/data_validator.py:18-85 | the count is the input length; empty data is invalid with one error; the report is valid iff it has no error and no finding |
| DataValidator.ValidationErrorsIff | src/trading_ai_bot/tools/historical_data/data_validator.py:59-85 | a non-empty report has no error iff no previous close is 0 |
| DataValidator.ValidationRaises | src/trading_ai_bot/tools/historical_data/data_validator.py:81-85 | on a zero previous close the report keeps the duplicates and gaps, drops the price and volume lists and records the exception |
| DataValidator.ValidateData | src/trading_ai_bot/tools/historical_data/data_validator.py:18-85 | the method equals the report function |
| DataValidator.SampleValidation | tests/historical_data/standalone.py:153-181 | the three-candle sample is invalid with one duplicate, one bad-price candle (high below body and below low), one negative volume and no gap |
| Risk.PortfolioRiskNonNegative | src/trading_ai_bot/core/risk_manager.py:290-295 | positions with non-negative risk add up to a non-negative portfolio risk |
| Risk.RiskChecksFirstFailing | src/trading_ai_bot/core/risk_manager.py:132-164 | the reported check is the first failing one in order; the checks raise iff the first three pass and the balance is 0; they pass iff none fails and the balance is non-zero |
| Risk.ConfidenceMultiplierSteps | src/trading_ai_bot/core/risk_manager.py:196-208 | the multiplier is monotone in confidence, from 0.5 below 0.6 to 1.2 at 0.9 and above |
| Risk.VolatilityFactorSteps | src/trading_ai_bot/core/risk_manager.py:210-227 | the factor falls as the absolute 24h move grows, within [0.6, 1.2], and ignores its sign |
| Risk.TimeMultiplierPrecedence | src/trading_ai_bot/core/risk_manager.py:229-242 | the multiplier is 0.8, 1.0 or 1.1; any '1' gives 0.8; 1.1 iff there is no '1', '2' or '3' and there is a '4' or '6'; the default "2-4 часа" gives 1.0 |
| Risk.VolumeFactorSteps | src/trading_ai_bot/core/risk_manager.py:244-260 | the factor rises with 24h volume, within [0.7, 1.0] |
| Risk.ApplyPositionLimits | src/trading_ai_bot/core/risk_manager.py:262-288 | raises iff the entry is 0; never negative; 0 below the $100 minimum; otherwise at most the size, 25% of the balance and the headroom over abs(entry - 0.02·entry) when positive, and at least one of them |
| Risk.LimitsHold | src/trading_ai_bot/core/risk_manager.py:262-288 | above the minimum, the limited size is exactly the smallest applicable cap floored at 0 |
| Risk.Wins | src/trading_ai_bot/core/risk_manager.py:334 | every win is positive, and each positive pnl occurs among the wins exactly as often as in the history |
| Risk.Losses | src/trading_ai_bot/core/risk_manager.py:335 | every loss is negative, and each negative pnl occurs among the losses exactly as often as in the history |
| Risk.WinsLossesConcat | src/trading_ai_bot/core/risk_manager.py:334-335 | wins and losses keep history order: those of two runs of trades are the first run's followed by the second's |
| Risk.StatsBounds | src/trading_ai_bot/core/risk_manager.py:329-339 | win rate in [0, 1] and 0 iff no win; average win positive iff a win exists; average loss negative iff a loss exists |
| Risk.KellyFraction | src/trading_ai_bot/core/risk_manager.py:309-327 | the fraction lies in [0.1, 0.5]; it is 0.25 without a loss, a win rate or an average win (the caught division by b = 0), and otherwise the Kelly value (b·p − q)/b with b = avg_win/abs(avg_loss), clamped to [0.1, 0.5] |
| Risk.KellyStepCorrect | src/trading_ai_bot/core/risk_manager.py:297-327 | 0.5 with the statistics unchanged under ten trades; otherwise the statistics are recomputed and the fraction is the Kelly fraction of those new statistics, 0.25 when the history has no win or no loss |
| Risk.SizingResultCorrect | src/trading_ai_bot/core/risk_manager.py:56-130 | a refusal has size and risk 0; a computed size is never negative, is allowed iff positive, risks size·abs(entry - stop), reports ratio 0 at zero risk, and implies that all checks passed |
| Risk.SizingCaps | src/trading_ai_bot/core/risk_manager.py:96-108 | the adjusted size is `_adjust_position_size` of the base size balance·max_risk_per_trade/unit risk; a computed size is 0 below the minimum and otherwise exactly the smallest of the adjusted size, the 25% cap and the positive headroom cap |
| Risk.AdjustedSizeProduct | src/trading_ai_bot/core/risk_manager.py:166-195 | with volatility adjustment on, the adjusted size is the base size times the confidence, volatility, time and volume multipliers |
| Risk.AdjustedSizeBounds | src/trading_ai_bot/core/risk_manager.py:166-195 | a non-negative base size is scaled by between 0.168 and 1.584 |
| Risk.AdjustedSizeMonotone | src/trading_ai_bot/core/risk_manager.py:166-195 | more confidence never gives a smaller adjusted size |
| Risk.SizingStateCorrect | src/trading_ai_bot/core/risk_manager.py:117-126 | sizing changes only the statistics, and not at all with fewer than ten trades or without a computed size |
| Risk.SizingScenario | src/trading_ai_bot/core/risk_manager.py:56-130 | balance 10000, entry 50000, stop 49000, confidence 0.85, a 2% move and $3B volume give size 600/49000, risk 600/49000·1000, ratio 1 and Kelly 0.5 |
| Risk.PositionOf | src/trading_ai_bot/core/risk_manager.py:341-356 | a position is built iff all seven required keys are present, and it is long iff the action is buy |
| Risk.AddedStateRisk | src/trading_ai_bot/core/risk_manager.py:341-367 | opening appends one position, adds its risk amount to the portfolio risk and one to the trade count, and changes nothing else |
| Risk.FirstOn | src/trading_ai_bot/core/risk_manager.py:371-372 | the index of the first position on the symbol, or none iff there is none |
| Risk.PnlDirection | src/trading_ai_bot/core/risk_manager.py:373-377 | for a positive size, a long gains iff the price rose, a short iff it fell, and P&L is 0 iff the price is unchanged |
| Risk.CloseOutcomeCorrect | src/trading_ai_bot/core/risk_manager.py:369-403 | nothing closes iff no position is on the symbol; otherwise the first one is removed, its P&L is recorded once in the history and in the daily P&L, its risk leaves the portfolio, and the count and statistics stay |
| Risk.SummaryOf | src/trading_ai_bot/core/risk_manager.py:405-421 | the available risk is non-negative, positive iff headroom remains, and with the total risk covers the portfolio cap |
| Risk.RiskManager.constructor | src/trading_ai_bot/core/risk_manager.py:26-52 | a fresh manager has the given settings and the empty state |
| Risk.RiskManager.CalculatePortfolioRisk | src/trading_ai_bot/core/risk_manager.py:290-295 | the loop sums the risk amounts of the open positions |
| Risk.RiskManager.UpdateTradeStatistics | src/trading_ai_bot/core/risk_manager.py:329-339 | recomputes the statistics from the history (keeping them when it is empty) and changes nothing else |
| Risk.RiskManager.CalculateKellyFraction | src/trading_ai_bot/core/risk_manager.py:297-327 | returns the Kelly step's fraction and leaves its statistics |
| Risk.RiskManager.CalculatePositionSize | src/trading_ai_bot/core/risk_manager.py:56-130 | returns the sizing of the old state and leaves the sizing state |
| Risk.RiskManager.AddPosition | src/trading_ai_bot/core/risk_manager.py:341-367 | true and the opened state iff every required key is present, otherwise false and no change |
| Risk.RiskManager.ClosePosition | src/trading_ai_bot/core/risk_manager.py:369-403 | returns the trade record and leaves the closed state |
| Risk.RiskManager.GetPortfolioSummary | src/trading_ai_bot/core/risk_manager.py:405-421 | returns the summary of the current state |
| Risk.RiskManager.ResetDailyStats | src/trading_ai_bot/core/risk_manager.py:423-427 | zeroes the daily P&L and trade count and nothing else |
| Trading.AdaptAnalysis | src/trading_ai_bot/core/trading_agent.py:192-209 | bullish or bearish trend exactly from that sentiment, else sideways; confidence defaults to 0; entry 50000, stop 49000, target 51000 and ratio 2.0 by default |
| Trading.ScreenedOut | src/trading_ai_bot/core/trading_agent.py:140-149 | confidence below 0.5 or a stated or missing wait gives no decision and leaves the risk manager unchanged |
| Trading.DecisionIff | src/trading_ai_bot/core/trading_agent.py:152-185 | a decision exists iff the screen passes and the size is allowed; it buys iff the call is long and copies size, risk, profit and ratio; it raises iff sizing raises |
| Trading.ConfidenceGateNeverRefuses | src/trading_ai_bot/core/trading_agent.py:140-143 | a screened analysis never meets the risk manager's confidence refusal, and with the default settings a missing ratio passes the ratio check |
| Trading.DecisionWithinCaps | src/trading_ai_bot/core/trading_agent.py:152-173 | a decision's size is within 25% of the balance and the positive headroom cap at the adapted entry |
| Trading.MakeTradingDecision | src/trading_ai_bot/core/trading_agent.py:134-190 | returns the decision of the old risk state and leaves the decision-step state |
| Trading.DecisionScenario | src/trading_ai_bot/core/trading_agent.py:134-190 | a 0.85-confidence long at 50000 with a 49000 stop, on a fresh default manager, buys 600/49000 units |

## Where the code and its description differ

The model follows the code in each of these cases.

- **RSI.** The RSI is the plain mean of the last `period` gains and losses
  (`src/trading_ai_bot/tools/technical_analysis/tool.py:37-38`). It is not
  Wilder's smoothed average.
- **Headroom cap.** The headroom cap divides the available risk by
  `abs(entry - 0.02·entry)`, which is 98% of the entry price
  (`src/trading_ai_bot/core/risk_manager.py:279`). It does not divide by a
  stop distance of 2% of the entry.
- **The 50000/49000 scenario.** The quarter-balance cap and that headroom
  cap bring the size to 600/49000 (`Risk.SizingScenario`), not 0.2.

## Left out

- Network access, the exchange and LLM clients, storage, prompt building and formatting, and the agent's polling loop are not part of this model. Their results appear as parameters.
- Floating point: every price is an exact `real`, with no IEEE rounding.
- TechnicalAnalysis.TopNodes: the order among levels of equal volume is not stated. Python's sort is stable and keeps tied levels in insertion order, and the model's insertion sort also places an earlier level before an equal later one, but no lemma states this.
- The pandas EMAs of MACD and the rolling standard deviation of the Bollinger bands are inputs (`macdLine`, `signalLine`, `std ≥ 0`). Only the guards and the arithmetic around them are modelled.
- `datetime.now()` timestamps are an `int` parameter `now`. Timestamps in candles are seconds.
- Logging and the wording of reason strings are left out. The refusal reason is modelled as the check that failed.
- `correlation_limit` is read from the configuration but never used, so it is not modelled.
- Risk.AdjustPositionSize: with `volatility_adjustment` off, the source raises when it logs the never-assigned volatility factor. The model returns `Raises(UnboundVariable)` for that path and models no size on it.
- The fixed text fields of the analyzers (entry conditions, notes, market structure) are modelled only where a reader tests them. The mock reasoning sentence is kept as the values it is formatted from.
- Aliasing between the nested dictionaries that the validator edits and the caller's copies is not modelled. The validator returns the repaired analysis as a value.
- AnalysisValidator.SanitizeRatio: the ratio is promised to be at least 2 only when a first target is present. For a non-long call without one, the code reads the missing target as 0 and leaves it missing, so the ratio is 0 (`AnalysisValidator.ShortWithoutTargetHasZeroRatio`).
- Exceptions other than those listed in `Market.Fault` are left out. These are type errors on malformed dictionary values, and the generic `except` branches around them, such as a missing key in `add_position`, which is modelled as `None`.
