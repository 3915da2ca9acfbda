/** The indicator library and the multi-timeframe reconciler of the
    technical-analysis tool: RSI, the MACD guard, Bollinger bands, the
    volume profile, support/resistance, per-timeframe trends and the
    snapshot that composes them. */
module TechnicalAnalysis {
  import opened Market

  // ---------------------------------------------------------------------
  // RSI: simple means of the last `period` gains and losses
  // ---------------------------------------------------------------------

  /** `np.diff`: consecutive differences. */
  function Deltas(prices: seq<real>): (ds: seq<real>)
    ensures |ds| == if |prices| < 2 then 0 else |prices| - 1
    ensures forall i :: 0 <= i < |ds| ==> ds[i] == prices[i + 1] - prices[i]
  {
    if |prices| < 2 then [] else seq(|prices| - 1, i requires 0 <= i < |prices| - 1 => prices[i + 1] - prices[i])
  }

  function Gains(ds: seq<real>): (gs: seq<real>)
    ensures |gs| == |ds|
    ensures forall i :: 0 <= i < |ds| ==> gs[i] == (if ds[i] > 0.0 then ds[i] else 0.0)
  {
    seq(|ds|, i requires 0 <= i < |ds| => if ds[i] > 0.0 then ds[i] else 0.0)
  }

  function Losses(ds: seq<real>): (ls: seq<real>)
    ensures |ls| == |ds|
    ensures forall i :: 0 <= i < |ds| ==> ls[i] == (if ds[i] < 0.0 then -ds[i] else 0.0)
  {
    seq(|ds|, i requires 0 <= i < |ds| => if ds[i] < 0.0 then -ds[i] else 0.0)
  }

  /** The deltas the RSI averages: the last `period` of them. */
  function RsiWindow(prices: seq<real>, period: nat): seq<real>
  {
    LastN(Deltas(prices), period)
  }

  function AverageGain(prices: seq<real>, period: nat): (a: real)
    requires period >= 1
    ensures a >= 0.0
  {
    var gs := Gains(RsiWindow(prices, period));
    assert forall i :: 0 <= i < |gs| ==> gs[i] >= 0.0;
    SumNonNegative(gs);
    DivNonNegative(Sum(gs), period as real);
    Sum(gs) / (period as real)
  }

  function AverageLoss(prices: seq<real>, period: nat): (a: real)
    requires period >= 1
    ensures a >= 0.0
  {
    var ls := Losses(RsiWindow(prices, period));
    assert forall i :: 0 <= i < |ls| ==> ls[i] >= 0.0;
    SumNonNegative(ls);
    DivNonNegative(Sum(ls), period as real);
    Sum(ls) / (period as real)
  }

  /** `calculate_rsi`: neutral 50 on short input, 100 when nothing was lost
      over the window, otherwise 100 - 100/(1 + gain/loss). */
  function Rsi(prices: seq<real>, period: nat): (r: real)
    requires period >= 1
    ensures |prices| < period + 1 ==> r == 50.0
    ensures 0.0 <= r <= 100.0
    ensures |prices| >= period + 1 && AverageLoss(prices, period) == 0.0 ==> r == 100.0
    ensures |prices| >= period + 1 && AverageLoss(prices, period) > 0.0 ==>
      r == GainShare(AverageGain(prices, period), AverageLoss(prices, period))
  {
    if |prices| < period + 1 then 50.0
    else
      var avgLoss := AverageLoss(prices, period);
      if avgLoss == 0.0 then 100.0
      else
        RsiFormulaBounds(AverageGain(prices, period), avgLoss);
        RsiFormulaShare(AverageGain(prices, period), avgLoss);
        RsiFormula(AverageGain(prices, period), avgLoss)
  }

  function RsiFormula(avgGain: real, avgLoss: real): real
    requires avgGain >= 0.0 && avgLoss > 0.0
  {
    100.0 - 100.0 / (1.0 + avgGain / avgLoss)
  }

  lemma RsiFormulaBounds(avgGain: real, avgLoss: real)
    requires avgGain >= 0.0 && avgLoss > 0.0
    ensures 0.0 <= RsiFormula(avgGain, avgLoss) < 100.0
  {
    var rs := avgGain / avgLoss;
    assert rs >= 0.0;
    var d := 1.0 + rs;
    var q := 100.0 / d;
    assert q * d == 100.0;
    assert q > 0.0;
    assert q <= 100.0;
  }

  /** The average gain as a percentage of all average movement. */
  function GainShare(avgGain: real, avgLoss: real): real
    requires avgGain >= 0.0 && avgLoss > 0.0
  {
    100.0 * avgGain / (avgGain + avgLoss)
  }

  /** The formula is the gains' share of all movement, scaled to 100. */
  lemma RsiFormulaShare(avgGain: real, avgLoss: real)
    requires avgGain >= 0.0 && avgLoss > 0.0
    ensures RsiFormula(avgGain, avgLoss) == GainShare(avgGain, avgLoss)
  {
    var rs := avgGain / avgLoss;
    assert rs * avgLoss == avgGain;
    var d := 1.0 + rs;
    assert d * avgLoss == avgLoss + avgGain;
    assert 100.0 / d == 100.0 * avgLoss / (avgGain + avgLoss);
  }

  lemma DivNonNegative(x: real, y: real)
    requires x >= 0.0 && y > 0.0
    ensures x / y >= 0.0
  {
  }

  /** A sum of non-negative terms is zero exactly when every term is. */
  lemma {:induction false} SumZeroIff(xs: seq<real>)
    requires forall i :: 0 <= i < |xs| ==> xs[i] >= 0.0
    ensures Sum(xs) == 0.0 <==> forall i :: 0 <= i < |xs| ==> xs[i] == 0.0
  {
    if xs != [] {
      var init := xs[..|xs| - 1];
      SumZeroIff(init);
      SumNonNegative(init);
    }
  }

  /** With enough prices, the RSI is exactly 100 iff no delta in the window
      is negative, and otherwise lies strictly below 100. */
  lemma RsiHundredIff(prices: seq<real>, period: nat)
    requires period >= 1 && |prices| >= period + 1
    ensures Rsi(prices, period) == 100.0 <==>
      forall i :: 0 <= i < |RsiWindow(prices, period)| ==> RsiWindow(prices, period)[i] >= 0.0
  {
    var w := RsiWindow(prices, period);
    var ls := Losses(w);
    assert forall i :: 0 <= i < |ls| ==> ls[i] >= 0.0;
    SumZeroIff(ls);
    DivZeroIff(Sum(ls), period as real);
    assert AverageLoss(prices, period) == 0.0 <==> Sum(ls) == 0.0;
    assert (forall i :: 0 <= i < |ls| ==> ls[i] == 0.0) <==> (forall i :: 0 <= i < |w| ==> w[i] >= 0.0);
    if AverageLoss(prices, period) != 0.0 {
      RsiFormulaBounds(AverageGain(prices, period), AverageLoss(prices, period));
    }
  }

  lemma DivZeroIff(x: real, y: real)
    requires y > 0.0
    ensures x / y == 0.0 <==> x == 0.0
  {
    if x / y == 0.0 {
      assert x == x / y * y;
    }
  }

  // ---------------------------------------------------------------------
  // MACD: the exponential averages are library numerics and come in as
  // inputs; only the short-input guard and the histogram are modelled.
  // ---------------------------------------------------------------------

  datatype Macd = Macd(macd: real, signal: real, histogram: real)

  /** `calculate_macd`, with `macdLine` and `signalLine` the last values of
      the EMA(12) - EMA(26) line and of its EMA(9). */
  function CalculateMacd(prices: seq<real>, macdLine: real, signalLine: real): (m: Macd)
    ensures |prices| < 26 ==> m == Macd(0.0, 0.0, 0.0)
    ensures |prices| >= 26 ==> m.macd == macdLine && m.signal == signalLine
    ensures m.histogram == m.macd - m.signal
  {
    if |prices| < 26 then Macd(0.0, 0.0, 0.0)
    else Macd(macdLine, signalLine, macdLine - signalLine)
  }

  // ---------------------------------------------------------------------
  // Bollinger bands: the rolling sample deviation is an input.
  // ---------------------------------------------------------------------

  /** `width` is absent in the short-input result, as in the source. */
  datatype Bands = Bands(upper: real, middle: real, lower: real, position: real, width: Option<real>)

  /** Mean of the last `period` prices. */
  function Sma(prices: seq<real>, period: nat): real
    requires period >= 1
  {
    Sum(LastN(prices, period)) / (period as real)
  }

  /** `calculate_bollinger_bands`; `std` is the rolling standard deviation of
      the last `period` prices. */
  function BollingerBands(prices: seq<real>, period: nat, stdDev: real, std: real): (b: Bands)
    requires period >= 1 && std >= 0.0
    ensures |prices| < period ==>
      var p := if prices == [] then 0.0 else prices[|prices| - 1];
      b == Bands(p * 1.02, p, p * 0.98, 0.5, None)
    ensures |prices| >= period && stdDev >= 0.0 ==> b.upper >= b.middle >= b.lower
    ensures |prices| >= period ==> b.upper - b.middle == b.middle - b.lower
    ensures |prices| >= period && b.upper - b.lower <= 0.0 ==> b.position == 0.5
    ensures |prices| >= period && b.upper - b.lower > 0.0 ==>
      b.position * (b.upper - b.lower) == prices[|prices| - 1] - b.lower
    ensures |prices| >= period && b.middle <= 0.0 ==> b.width == Some(0.0)
    ensures |prices| >= period ==>
      b.middle == Sma(prices, period) && b.upper - b.middle == std * stdDev &&
      (b.middle > 0.0 ==> b.width == Some((b.upper - b.lower) / b.middle))
  {
    if |prices| < period then
      var p := if prices == [] then 0.0 else prices[|prices| - 1];
      Bands(p * 1.02, p, p * 0.98, 0.5, None)
    else
      var middle := Sma(prices, period);
      var upper := middle + std * stdDev;
      var lower := middle - std * stdDev;
      var price := prices[|prices| - 1];
      var bandWidth := upper - lower;
      var position := if bandWidth > 0.0 then (price - lower) / bandWidth else 0.5;
      Bands(upper, middle, lower, position, Some(if middle > 0.0 then bandWidth / middle else 0.0))
  }

  /** The position is the price's place between the bands: from 0 at the
      lower band to 1 at the upper one, and inside [0, 1] exactly when the
      price is inside the bands. */
  lemma BandPositionRange(prices: seq<real>, period: nat, stdDev: real, std: real)
    requires period >= 1 && std >= 0.0 && |prices| >= period
    ensures var b := BollingerBands(prices, period, stdDev, std);
      var price := prices[|prices| - 1];
      b.upper - b.lower > 0.0 ==>
        && (0.0 <= b.position <= 1.0 <==> b.lower <= price <= b.upper)
        && (b.position == 0.0 <==> price == b.lower)
        && (b.position == 1.0 <==> price == b.upper)
  {
    var b := BollingerBands(prices, period, stdDev, std);
    var price := prices[|prices| - 1];
    if b.upper - b.lower > 0.0 {
      ScaledOrder(b.position, b.upper - b.lower, price - b.lower);
    }
  }

  /** For `p * w == d` with `w > 0`, `p` sits against 0 and 1 as `d` sits
      against 0 and `w`. */
  lemma ScaledOrder(p: real, w: real, d: real)
    requires w > 0.0 && p * w == d
    ensures (p >= 0.0 <==> d >= 0.0) && (p <= 1.0 <==> d <= w)
    ensures (p == 0.0 <==> d == 0.0) && (p == 1.0 <==> d == w)
  {
    assert (p - 1.0) * w == d - w;
    if p < 0.0 { MulMono(p, 0.0, w); }
    if p > 1.0 { MulMono(1.0, p, w); }
    if p == 1.0 { assert d == w; }
  }

  // ---------------------------------------------------------------------
  // Volume profile
  // ---------------------------------------------------------------------

  datatype VolumeTrend = Increasing | Decreasing | Stable | InsufficientData | NeutralTrend

  /** `avgVolume` is absent in the empty-input result, as in the source. */
  datatype VolumeProfile = VolumeProfile(vwap: real, trend: VolumeTrend, nodes: seq<int>, avgVolume: Option<real>)

  function TypicalPrice(c: Candle): real
  {
    (c.high + c.low + c.close) / 3.0
  }

  /** A candle's contribution to the VWAP numerator. */
  function Weighted(c: Candle): real
  {
    TypicalPrice(c) * c.volume
  }

  function PriceVolumes(ks: seq<Candle>): (r: seq<real>)
    ensures |r| == |ks| && forall i :: 0 <= i < |ks| ==> r[i] == Weighted(ks[i])
  {
    if ks == [] then [] else PriceVolumes(ks[..|ks| - 1]) + [Weighted(ks[|ks| - 1])]
  }

  /** Volume-weighted average of the typical prices; 0 without volume. */
  function Vwap(ks: seq<Candle>): real
  {
    var total := Sum(Volumes(ks));
    if total > 0.0 then Sum(PriceVolumes(ks)) / total else 0.0
  }

  lemma MulMono(a: real, b: real, v: real)
    requires a <= b && v >= 0.0
    ensures a * v <= b * v
  {
  }

  lemma WeightedBounds(c: Candle, lo: real, hi: real)
    requires c.volume >= 0.0 && lo <= TypicalPrice(c) <= hi
    ensures Times(lo, c.volume) <= Weighted(c) <= Times(hi, c.volume)
  {
    MulMono(lo, TypicalPrice(c), c.volume);
    MulMono(TypicalPrice(c), hi, c.volume);
  }

  /** The VWAP numerator lies between the total volume weighted by the
      lowest and by the highest typical price. */
  lemma WeightedSumBounds(ks: seq<Candle>, lo: real, hi: real)
    requires forall i :: 0 <= i < |ks| ==> ks[i].volume >= 0.0 && lo <= TypicalPrice(ks[i]) <= hi
    ensures Times(lo, Sum(Volumes(ks))) <= Sum(PriceVolumes(ks)) <= Times(hi, Sum(Volumes(ks)))
  {
    var vs, pvs := Volumes(ks), PriceVolumes(ks);
    forall i | 0 <= i < |ks| ensures Times(lo, vs[i]) <= pvs[i] <= Times(hi, vs[i]) {
      WeightedBounds(ks[i], lo, hi);
    }
    SumMono(Scaled(lo, vs), pvs);
    SumMono(pvs, Scaled(hi, vs));
    SumScaled(lo, vs);
    SumScaled(hi, vs);
  }

  /** With non-negative volumes and some volume traded, the VWAP lies
      between the lowest and highest typical price. */
  lemma VwapWithinTypicalRange(ks: seq<Candle>, lo: real, hi: real)
    requires forall i :: 0 <= i < |ks| ==> ks[i].volume >= 0.0 && lo <= TypicalPrice(ks[i]) <= hi
    requires Sum(Volumes(ks)) > 0.0
    ensures lo <= Vwap(ks) <= hi
  {
    var x, t := Sum(PriceVolumes(ks)), Sum(Volumes(ks));
    WeightedSumBounds(ks, lo, hi);
    DivBounds(x, t, lo, hi);
    assert Vwap(ks) == x / t;
  }

  lemma DivBounds(x: real, t: real, lo: real, hi: real)
    requires t > 0.0 && Times(lo, t) <= x <= Times(hi, t)
    ensures lo <= x / t <= hi
  {
    var q := x / t;
    assert q * t == x;
    assert (q - lo) * t >= 0.0;
    assert (hi - q) * t >= 0.0;
  }

  /** Last ten volumes over the ten before them (1 when those sum to 0). */
  function VolumeRatio(ks: seq<Candle>): real
    requires |ks| >= 20
  {
    var recent := Sum(Volumes(ks[|ks| - 10..]));
    var previous := Sum(Volumes(ks[|ks| - 20..|ks| - 10]));
    if previous > 0.0 then recent / previous else 1.0
  }

  /** The volume trend label of a non-empty candle list. */
  function VolumeTrendOf(ks: seq<Candle>): (t: VolumeTrend)
    ensures |ks| < 20 <==> t == InsufficientData
    ensures |ks| >= 20 ==>
      && (t == Increasing <==> VolumeRatio(ks) > 1.3)
      && (t == Decreasing <==> VolumeRatio(ks) < 0.7)
      && (t == Stable <==> 0.7 <= VolumeRatio(ks) <= 1.3)
    ensures t != NeutralTrend
  {
    if |ks| >= 20 then
      var ratio := VolumeRatio(ks);
      if ratio > 1.3 then Increasing
      else if ratio < 0.7 then Decreasing
      else Stable
    else InsufficientData
  }

  /** Python's `round`: to the nearest integer, ties to the even one. */
  function RoundHalfEven(x: real): (n: int)
    ensures x - 0.5 <= n as real <= x + 0.5
  {
    var f := x.Floor;
    var frac := x - f as real;
    if frac < 0.5 then f
    else if frac > 0.5 then f + 1
    else if f % 2 == 0 then f else f + 1
  }

  /** The price level a close is bucketed to: the nearest multiple of 100. */
  function PriceLevel(close: real): int
  {
    RoundHalfEven(close / 100.0) * 100
  }

  /** The price-volume dictionary: accumulated volume per level, with the
      levels in first-insertion order. */
  datatype LevelVolumes = LevelVolumes(volume: map<int, real>, order: seq<int>)

  ghost predicate WellFormedLevels(b: LevelVolumes)
  {
    && Distinct(b.order)
    && (forall k :: k in b.volume <==> k in b.order)
    && (forall i :: 0 <= i < |b.order| ==> b.order[i] in b.volume)
  }

  function AddCandle(b: LevelVolumes, c: Candle): LevelVolumes
  {
    var level := PriceLevel(c.close);
    var withLevel := if level in b.volume then b else LevelVolumes(b.volume[level := 0.0], b.order + [level]);
    LevelVolumes(withLevel.volume[level := withLevel.volume[level] + c.volume], withLevel.order)
  }

  function LevelVolumesOf(ks: seq<Candle>): (b: LevelVolumes)
    ensures WellFormedLevels(b)
  {
    if ks == [] then LevelVolumes(map[], [])
    else AddCandle(LevelVolumesOf(ks[..|ks| - 1]), ks[|ks| - 1])
  }

  ghost predicate Distinct(s: seq<int>)
  {
    forall i, j :: 0 <= i < j < |s| ==> s[i] != s[j]
  }

  /** Every level in `s` has a volume and the volumes never increase. */
  ghost predicate SortedByVolumeDesc(s: seq<int>, vol: map<int, real>)
  {
    && (forall i :: 0 <= i < |s| ==> s[i] in vol)
    && (forall i, j :: 0 <= i < j < |s| ==> vol[s[i]] >= vol[s[j]])
  }

  /** Place `k` ahead of the first level whose volume does not exceed its
      own; applied from the back, this is a stable descending sort. */
  function InsertByVolume(k: int, s: seq<int>, vol: map<int, real>): (r: seq<int>)
    requires k in vol && forall i :: 0 <= i < |s| ==> s[i] in vol
    ensures |r| == |s| + 1 && forall x :: x in r <==> x == k || x in s
    ensures forall i :: 0 <= i < |r| ==> r[i] in vol
  {
    if s == [] then [k]
    else if vol[s[0]] <= vol[k] then [k] + s
    else [s[0]] + InsertByVolume(k, s[1..], vol)
  }

  lemma {:induction false} InsertByVolumeSorted(k: int, s: seq<int>, vol: map<int, real>)
    requires k in vol && SortedByVolumeDesc(s, vol)
    ensures SortedByVolumeDesc(InsertByVolume(k, s, vol), vol)
  {
    if s != [] && vol[s[0]] > vol[k] {
      InsertByVolumeSorted(k, s[1..], vol);
      var r := InsertByVolume(k, s, vol);
      forall j | 1 <= j < |r| ensures vol[r[0]] >= vol[r[j]] {
        assert r[j] in InsertByVolume(k, s[1..], vol);
      }
    }
  }

  lemma {:induction false} InsertByVolumeDistinct(k: int, s: seq<int>, vol: map<int, real>)
    requires k in vol && forall i :: 0 <= i < |s| ==> s[i] in vol
    requires k !in s && Distinct(s)
    ensures Distinct(InsertByVolume(k, s, vol))
  {
    if s != [] && vol[s[0]] > vol[k] {
      InsertByVolumeDistinct(k, s[1..], vol);
      var r := InsertByVolume(k, s, vol);
      forall j | 1 <= j < |r| ensures r[0] != r[j] {
        assert r[j] in InsertByVolume(k, s[1..], vol);
      }
    }
  }

  /** `sorted(levels, key=volume, reverse=True)`. */
  function SortByVolume(s: seq<int>, vol: map<int, real>): (r: seq<int>)
    requires forall i :: 0 <= i < |s| ==> s[i] in vol
    ensures |r| == |s| && forall x :: x in r <==> x in s
    ensures forall i :: 0 <= i < |r| ==> r[i] in vol
  {
    if s == [] then [] else InsertByVolume(s[0], SortByVolume(s[1..], vol), vol)
  }

  lemma {:induction false} SortByVolumeCorrect(s: seq<int>, vol: map<int, real>)
    requires forall i :: 0 <= i < |s| ==> s[i] in vol
    requires Distinct(s)
    ensures SortedByVolumeDesc(SortByVolume(s, vol), vol)
    ensures Distinct(SortByVolume(s, vol))
  {
    if s != [] {
      SortByVolumeCorrect(s[1..], vol);
      assert s[0] !in s[1..];
      assert s[0] !in SortByVolume(s[1..], vol);
      var tail := SortByVolume(s[1..], vol);
      InsertByVolumeSorted(s[0], tail, vol);
      InsertByVolumeDistinct(s[0], tail, vol);
      assert SortByVolume(s, vol) == InsertByVolume(s[0], tail, vol);
    }
  }

  /** The three levels with the most volume. */
  function TopNodes(b: LevelVolumes): (r: seq<int>)
    requires forall i :: 0 <= i < |b.order| ==> b.order[i] in b.volume
    ensures |r| <= 3 && |r| <= |b.order|
  {
    var sorted := SortByVolume(b.order, b.volume);
    if |sorted| <= 3 then sorted else sorted[..3]
  }

  /** The high-volume nodes of the last 50 candles. */
  function HighVolumeNodes(ks: seq<Candle>): seq<int>
  {
    TopNodes(LevelVolumesOf(LastN(ks, 50)))
  }

  /** A prefix of a distinct, volume-sorted list keeps both properties,
      and whatever it drops has no more volume than what it keeps. */
  lemma SortedPrefix(s: seq<int>, vol: map<int, real>, n: nat)
    requires SortedByVolumeDesc(s, vol) && Distinct(s)
    ensures var p := if |s| <= n then s else s[..n];
      && |p| == (if |s| <= n then |s| else n)
      && SortedByVolumeDesc(p, vol)
      && Distinct(p)
      && (forall k, i :: k in s && k !in p && 0 <= i < |p| ==> vol[k] <= vol[p[i]])
  {
    var p := if |s| <= n then s else s[..n];
    forall k, i | k in s && k !in p && 0 <= i < |p|
      ensures vol[k] <= vol[p[i]]
    {
      var q :| 0 <= q < |s| && s[q] == k;
      assert q >= |p|;
      assert p[i] == s[i];
    }
  }

  /** The nodes are at most three distinct levels, in non-increasing volume
      order, and every level left out has no more volume than any node. */
  lemma TopNodesCorrect(b: LevelVolumes)
    requires WellFormedLevels(b)
    ensures var nodes := TopNodes(b);
      && |nodes| == (if |b.order| < 3 then |b.order| else 3)
      && SortedByVolumeDesc(nodes, b.volume)
      && Distinct(nodes)
      && (forall k, i :: k in b.volume && k !in nodes && 0 <= i < |nodes| ==> b.volume[k] <= b.volume[nodes[i]])
  {
    var sorted := SortByVolume(b.order, b.volume);
    SortByVolumeCorrect(b.order, b.volume);
    SortedPrefix(sorted, b.volume, 3);
    forall k | k in b.volume ensures k in sorted {
      assert k in b.order;
    }
  }

  /** Mean volume of the last (up to) twenty candles. */
  function AverageVolume(ks: seq<Candle>): real
    requires ks != []
  {
    Sum(Volumes(LastN(ks, 20))) / (if |ks| < 20 then |ks| as real else 20.0)
  }

  function VolumeProfileOf(ks: seq<Candle>): VolumeProfile
  {
    if ks == [] then VolumeProfile(0.0, NeutralTrend, [], None)
    else VolumeProfile(Vwap(ks), VolumeTrendOf(ks), HighVolumeNodes(ks), Some(AverageVolume(ks)))
  }

  /** The VWAP accumulator loop of `calculate_volume_profile`. */
  method AccumulateVwap(klines: seq<Candle>) returns (vwap: real)
    ensures vwap == Vwap(klines)
  {
    var totalVolume := 0.0;
    var totalPriceVolume := 0.0;
    for i := 0 to |klines|
      invariant Accumulated(klines[..i], totalVolume, totalPriceVolume)
    {
      AccumulateStep(klines, i, totalVolume, totalPriceVolume);
      totalPriceVolume := totalPriceVolume + Weighted(klines[i]);
      totalVolume := totalVolume + klines[i].volume;
    }
    assert klines[..|klines|] == klines;
    vwap := if totalVolume > 0.0 then totalPriceVolume / totalVolume else 0.0;
  }

  /** The running sums of the VWAP loop over the candles `ks` seen so far. */
  ghost predicate Accumulated(ks: seq<Candle>, volume: real, priceVolume: real)
  {
    volume == Sum(Volumes(ks)) && priceVolume == Sum(PriceVolumes(ks))
  }

  /** One more candle adds its volume and its weighted price to the sums
      over the candles before it. */
  lemma AccumulateStep(ks: seq<Candle>, i: nat, volume: real, priceVolume: real)
    requires i < |ks| && Accumulated(ks[..i], volume, priceVolume)
    ensures Accumulated(ks[..i + 1], volume + ks[i].volume, priceVolume + Weighted(ks[i]))
  {
    var front := ks[..i + 1];
    assert front[..i] == ks[..i];
    assert Volumes(front)[..i] == Volumes(ks[..i]);
    assert PriceVolumes(front)[..i] == PriceVolumes(ks[..i]);
  }

  /** The loop of `calculate_volume_profile` that fills the price-level
      dictionary in place. */
  method AccumulateLevels(recent: seq<Candle>) returns (levels: map<int, real>, order: seq<int>)
    ensures LevelVolumes(levels, order) == LevelVolumesOf(recent)
  {
    levels, order := map[], [];
    for i := 0 to |recent|
      invariant LevelVolumes(levels, order) == LevelVolumesOf(recent[..i])
    {
      LevelVolumesStep(recent, i);
      ghost var before := LevelVolumes(levels, order);
      var level := PriceLevel(recent[i].close);
      if level !in levels {
        levels := levels[level := 0.0];
        order := order + [level];
      }
      ghost var withLevel := LevelVolumes(levels, order);
      assert withLevel ==
        if level in before.volume then before else LevelVolumes(before.volume[level := 0.0], before.order + [level]);
      levels := levels[level := levels[level] + recent[i].volume];
      AddCandleVia(before, recent[i], withLevel);
    }
    assert recent[..|recent|] == recent;
  }

  /** Adding a candle first makes room for its level, then adds to it. */
  lemma AddCandleVia(b: LevelVolumes, c: Candle, withLevel: LevelVolumes)
    requires var level := PriceLevel(c.close);
      withLevel == if level in b.volume then b else LevelVolumes(b.volume[level := 0.0], b.order + [level])
    ensures var level := PriceLevel(c.close);
      AddCandle(b, c) == LevelVolumes(withLevel.volume[level := withLevel.volume[level] + c.volume], withLevel.order)
  {
  }

  lemma LevelVolumesStep(ks: seq<Candle>, i: nat)
    requires i < |ks|
    ensures LevelVolumesOf(ks[..i + 1]) == AddCandle(LevelVolumesOf(ks[..i]), ks[i])
  {
    assert ks[..i + 1][..i] == ks[..i];
  }

  /** `calculate_volume_profile`. */
  method CalculateVolumeProfile(klines: seq<Candle>) returns (p: VolumeProfile)
    ensures p == VolumeProfileOf(klines)
    ensures klines == [] ==> p.trend == NeutralTrend && p.vwap == 0.0 && p.nodes == []
    ensures |p.nodes| <= 3
  {
    if klines == [] {
      return VolumeProfile(0.0, NeutralTrend, [], None);
    }
    var vwap := AccumulateVwap(klines);
    var trend := VolumeTrendOf(klines);
    var levels, order := AccumulateLevels(LastN(klines, 50));
    var nodes := TopNodes(LevelVolumes(levels, order));
    p := VolumeProfile(vwap, trend, nodes, Some(AverageVolume(klines)));
  }

  // ---------------------------------------------------------------------
  // Support and resistance
  // ---------------------------------------------------------------------

  datatype Strength = Strong | Medium | Weak

  /** The test counts are absent in the short-input result, as in the source. */
  datatype SupportResistance = SupportResistance(
    resistance: real, support: real, strength: Strength,
    resistanceTests: Option<nat>, supportTests: Option<nat>)

  /** Index `i` is strictly above its two neighbours on each side. */
  predicate IsPeak(xs: seq<real>, i: int)
    requires 2 <= i && i + 2 < |xs|
  {
    xs[i] > xs[i - 1] && xs[i] > xs[i + 1] && xs[i] > xs[i - 2] && xs[i] > xs[i + 2]
  }

  /** Index `i` is strictly below its two neighbours on each side. */
  predicate IsTrough(xs: seq<real>, i: int)
    requires 2 <= i && i + 2 < |xs|
  {
    xs[i] < xs[i - 1] && xs[i] < xs[i + 1] && xs[i] < xs[i - 2] && xs[i] < xs[i + 2]
  }

  /** The peak values at indices 2 .. n-1, in index order. */
  function Peaks(xs: seq<real>, n: int): seq<real>
    requires n + 2 <= |xs|
    decreases n
  {
    if n <= 2 then [] else Peaks(xs, n - 1) + (if IsPeak(xs, n - 1) then [xs[n - 1]] else [])
  }

  /** The trough values at indices 2 .. n-1, in index order. */
  function Troughs(xs: seq<real>, n: int): seq<real>
    requires n + 2 <= |xs|
    decreases n
  {
    if n <= 2 then [] else Troughs(xs, n - 1) + (if IsTrough(xs, n - 1) then [xs[n - 1]] else [])
  }

  /** A value is a resistance level exactly when some scanned index is a
      peak holding it. */
  lemma {:induction false} PeaksIff(xs: seq<real>, n: int, x: real)
    requires n + 2 <= |xs|
    ensures x in Peaks(xs, n) <==> exists i :: 2 <= i < n && IsPeak(xs, i) && xs[i] == x
  {
    if n > 2 {
      PeaksIff(xs, n - 1, x);
    }
  }

  /** A value is a support level exactly when some scanned index is a
      trough holding it. */
  lemma {:induction false} TroughsIff(xs: seq<real>, n: int, x: real)
    requires n + 2 <= |xs|
    ensures x in Troughs(xs, n) <==> exists i :: 2 <= i < n && IsTrough(xs, i) && xs[i] == x
  {
    if n > 2 {
      TroughsIff(xs, n - 1, x);
    }
  }

  /** `min([l for l in levels if l > p])`, absent when nothing is above `p`. */
  function MinAbove(levels: seq<real>, p: real): (m: Option<real>)
    ensures m.None? <==> forall i :: 0 <= i < |levels| ==> levels[i] <= p
    ensures m.Some? ==> m.value > p && m.value in levels
    ensures m.Some? ==> forall i :: 0 <= i < |levels| && levels[i] > p ==> m.value <= levels[i]
  {
    if levels == [] then None
    else
      var rest := MinAbove(levels[..|levels| - 1], p);
      var x := levels[|levels| - 1];
      if x <= p then rest
      else if rest.Some? && rest.value <= x then rest
      else Some(x)
  }

  /** `max([l for l in levels if l < p])`, absent when nothing is below `p`. */
  function MaxBelow(levels: seq<real>, p: real): (m: Option<real>)
    ensures m.None? <==> forall i :: 0 <= i < |levels| ==> levels[i] >= p
    ensures m.Some? ==> m.value < p && m.value in levels
    ensures m.Some? ==> forall i :: 0 <= i < |levels| && levels[i] < p ==> m.value >= levels[i]
  {
    if levels == [] then None
    else
      var rest := MaxBelow(levels[..|levels| - 1], p);
      var x := levels[|levels| - 1];
      if x >= p then rest
      else if rest.Some? && rest.value >= x then rest
      else Some(x)
  }

  /** A price tests a level when it is within half a percent of it. */
  predicate Near(x: real, level: real)
    requires level != 0.0
  {
    Abs(x - level) / level < 0.005
  }

  /** How many prices test `level`: the number of positions holding one. */
  function CountNear(xs: seq<real>, level: real): (n: nat)
    requires level != 0.0
    ensures n <= |xs|
    ensures n == 0 <==> forall i :: 0 <= i < |xs| ==> !Near(xs[i], level)
    ensures n == |xs| <==> forall i :: 0 <= i < |xs| ==> Near(xs[i], level)
    ensures n == |NearIndices(xs, level)|
  {
    if xs == [] then
      assert NearIndices(xs, level) == {};
      0
    else
      NearIndicesLast(xs, level);
      CountNear(xs[..|xs| - 1], level) + (if Near(xs[|xs| - 1], level) then 1 else 0)
  }

  /** The positions of the prices that test `level`. */
  ghost function NearIndices(xs: seq<real>, level: real): set<int>
    requires level != 0.0
  {
    set i | 0 <= i < |xs| && Near(xs[i], level)
  }

  /** The last position joins the set of its prefix exactly when it tests
      the level. */
  lemma NearIndicesLast(xs: seq<real>, level: real)
    requires level != 0.0 && xs != []
    ensures var last := |xs| - 1;
      NearIndices(xs, level) ==
        NearIndices(xs[..last], level) + (if Near(xs[last], level) then {last} else {})
      && last !in NearIndices(xs[..last], level)
  {
    var last := |xs| - 1;
    var prefix := xs[..last];
    forall i ensures i in NearIndices(xs, level) <==>
      i in NearIndices(prefix, level) + (if Near(xs[last], level) then {last} else {})
    {
      if 0 <= i < last {
        assert prefix[i] == xs[i];
      }
    }
  }

  function StrengthOf(resistanceTests: nat, supportTests: nat): (s: Strength)
    ensures s == Strong <==> resistanceTests >= 3 || supportTests >= 3
    ensures s == Medium <==> resistanceTests < 3 && supportTests < 3 && (resistanceTests == 2 || supportTests == 2)
    ensures s == Weak <==> resistanceTests < 2 && supportTests < 2
  {
    if resistanceTests >= 3 || supportTests >= 3 then Strong
    else if resistanceTests >= 2 || supportTests >= 2 then Medium
    else Weak
  }

  /** `calculate_support_resistance`. Counting the tests divides by each
      level, so a zero level raises. */
  function SupportResistanceOf(ks: seq<Candle>): Result<SupportResistance>
  {
    if |ks| < 20 then
      var p := if ks == [] then 0.0 else ks[|ks| - 1].close;
      Ok(SupportResistance(p * 1.02, p * 0.98, Weak, None, None))
    else
      var highs, lows := Highs(LastN(ks, 50)), Lows(LastN(ks, 50));
      LevelsAround(highs, lows, Peaks(highs, |highs| - 2), Troughs(lows, |lows| - 2), ks[|ks| - 1].close)
  }

  /** The nearest levels around price `p` (2% away when there is none) and
      the number of highs and lows testing them. */
  function LevelsAround(highs: seq<real>, lows: seq<real>, peaks: seq<real>, troughs: seq<real>, p: real): Result<SupportResistance>
  {
    var resistance := MinAbove(peaks, p).GetOr(p * 1.02);
    var support := MaxBelow(troughs, p).GetOr(p * 0.98);
    if resistance == 0.0 || support == 0.0 then Raises(ZeroDivision)
    else
      var rt, st := CountNear(highs, resistance), CountNear(lows, support);
      Ok(SupportResistance(resistance, support, StrengthOf(rt, st), Some(rt), Some(st)))
  }

  /** Troughs are values of the series, so they share its lower bound. */
  lemma {:induction false} TroughsAbove(xs: seq<real>, n: int, bound: real)
    requires n + 2 <= |xs| && forall i :: 0 <= i < |xs| ==> xs[i] > bound
    ensures forall i :: 0 <= i < |Troughs(xs, n)| ==> Troughs(xs, n)[i] > bound
  {
    if n > 2 {
      TroughsAbove(xs, n - 1, bound);
    }
  }

  /** Around a positive price with positive trough levels nothing raises,
      the resistance is above the price and the support is positive and
      below it. */
  lemma LevelsAroundBracket(highs: seq<real>, lows: seq<real>, peaks: seq<real>, troughs: seq<real>, p: real)
    requires p > 0.0 && forall i :: 0 <= i < |troughs| ==> troughs[i] > 0.0
    ensures var r := LevelsAround(highs, lows, peaks, troughs, p);
      && r.Ok? && 0.0 < r.value.support < p < r.value.resistance
      && r.value.resistanceTests.Some? && r.value.supportTests.Some?
  {
  }

  /** With a positive last close and enough candles whose lows are all
      positive, nothing raises and the levels bracket the close. */
  lemma LevelsBracketPrice(ks: seq<Candle>)
    requires |ks| >= 20 && ks[|ks| - 1].close > 0.0
    requires forall i :: 0 <= i < |ks| ==> ks[i].low > 0.0
    ensures SupportResistanceOf(ks).Ok?
    ensures var sr := SupportResistanceOf(ks).value; 0.0 < sr.support < ks[|ks| - 1].close < sr.resistance
  {
    var highs, lows := Highs(LastN(ks, 50)), Lows(LastN(ks, 50));
    var peaks, troughs := Peaks(highs, |highs| - 2), Troughs(lows, |lows| - 2);
    var p := ks[|ks| - 1].close;
    assert SupportResistanceOf(ks) == LevelsAround(highs, lows, peaks, troughs, p);
    RecentLowsPositive(ks);
    TroughsAbove(lows, |lows| - 2, 0.0);
    LevelsAroundBracket(highs, lows, peaks, troughs, p);
  }

  /** The lows of the last 50 candles are among the lows of all of them. */
  lemma RecentLowsPositive(ks: seq<Candle>)
    requires forall i :: 0 <= i < |ks| ==> ks[i].low > 0.0
    ensures var lows := Lows(LastN(ks, 50)); forall i :: 0 <= i < |lows| ==> lows[i] > 0.0
  {
    var recent := LastN(ks, 50);
    forall i | 0 <= i < |recent| ensures Lows(recent)[i] > 0.0 {
      assert recent[i] == ks[|ks| - |recent| + i];
    }
  }

  /** The index loop of `calculate_support_resistance`. */
  method ScanLevels(highs: seq<real>, lows: seq<real>) returns (resistanceLevels: seq<real>, supportLevels: seq<real>)
    requires |highs| == |lows| >= 4
    ensures resistanceLevels == Peaks(highs, |highs| - 2)
    ensures supportLevels == Troughs(lows, |lows| - 2)
  {
    resistanceLevels, supportLevels := [], [];
    var i := 2;
    while i < |highs| - 2
      invariant 2 <= i <= |highs| - 2
      invariant resistanceLevels == Peaks(highs, i)
      invariant supportLevels == Troughs(lows, i)
    {
      if IsPeak(highs, i) {
        resistanceLevels := resistanceLevels + [highs[i]];
      }
      if IsTrough(lows, i) {
        supportLevels := supportLevels + [lows[i]];
      }
      i := i + 1;
    }
  }

  /** `calculate_support_resistance` over the last 50 candles. */
  method CalculateSupportResistance(klines: seq<Candle>) returns (r: Result<SupportResistance>)
    ensures r == SupportResistanceOf(klines)
  {
    if |klines| < 20 {
      var p := if klines == [] then 0.0 else klines[|klines| - 1].close;
      return Ok(SupportResistance(p * 1.02, p * 0.98, Weak, None, None));
    }
    var highs, lows := Highs(LastN(klines, 50)), Lows(LastN(klines, 50));
    var resistanceLevels, supportLevels := ScanLevels(highs, lows);
    r := LevelsAround(highs, lows, resistanceLevels, supportLevels, klines[|klines| - 1].close);
  }

  // ---------------------------------------------------------------------
  // Multi-timeframe trend
  // ---------------------------------------------------------------------

  datatype Trend = Bullish | Bearish | Sideways

  datatype TimeframeTrend = TimeframeTrend(trend: Trend, strength: Strength, smaShort: real, smaLong: real)

  datatype OverallTrend = OverallBullish | OverallBearish | Mixed | UnknownTrend

  /** `timeframes` is absent when no multi-timeframe data was supplied. */
  datatype MultiTimeframe = MultiTimeframe(
    timeframes: Option<seq<(string, TimeframeTrend)>>, overall: OverallTrend, agreement: bool)

  /** Trend of one series of at least ten closes: the 5-bar mean against
      the 10-bar mean with a 0.2% band, and the strength of the move over
      the last five bars (raising when the close five bars back is 0). */
  function SeriesTrend(closes: seq<real>): (r: Result<TimeframeTrend>)
    requires |closes| >= 10
    ensures r.Raises? <==> closes[|closes| - 5] == 0.0
    ensures r.Ok? ==> var t := r.value;
      && (t.trend == Bullish <==> t.smaShort > t.smaLong * 1.002)
      && (t.trend == Bearish <==> t.smaShort <= t.smaLong * 1.002 && t.smaShort < t.smaLong * 0.998)
      && t.smaShort == Sum(LastN(closes, 5)) / 5.0
      && t.smaLong == Sum(LastN(closes, 10)) / 10.0
      && t.strength == MoveStrength(RelativeChange(closes[|closes| - 5], closes[|closes| - 1]))
  {
    var smaShort := Sum(LastN(closes, 5)) / 5.0;
    var smaLong := Sum(LastN(closes, 10)) / 10.0;
    var trend :=
      if smaShort > smaLong * 1.002 then Bullish
      else if smaShort < smaLong * 0.998 then Bearish
      else Sideways;
    var base := closes[|closes| - 5];
    if base == 0.0 then Raises(ZeroDivision)
    else Ok(TimeframeTrend(trend, MoveStrength(RelativeChange(base, closes[|closes| - 1])), smaShort, smaLong))
  }

  /** `(to - from) / from`. */
  function RelativeChange(from: real, to: real): real
    requires from != 0.0
  {
    (to - from) / from
  }

  function MoveStrength(change: real): (s: Strength)
    ensures s == Strong <==> Abs(change) > 0.02
    ensures s == Weak <==> Abs(change) <= 0.01
  {
    if Abs(change) > 0.02 then Strong
    else if Abs(change) > 0.01 then Medium
    else Weak
  }

  /** The per-timeframe entries, in the order of the input dictionary;
      series shorter than ten candles are skipped. */
  function TimeframeEntries(data: seq<(string, seq<Candle>)>): Result<seq<(string, TimeframeTrend)>>
  {
    if data == [] then Ok([])
    else
      var rest := TimeframeEntries(data[..|data| - 1]);
      var (name, ks) := data[|data| - 1];
      if rest.Raises? then rest
      else if |ks| < 10 then rest
      else
        var t := SeriesTrend(Closes(ks));
        if t.Raises? then Raises(t.fault) else Ok(rest.value + [(name, t.value)])
  }

  function Trends(entries: seq<(string, TimeframeTrend)>): (ts: seq<Trend>)
    ensures |ts| == |entries| && forall i :: 0 <= i < |entries| ==> ts[i] == entries[i].1.trend
  {
    if entries == [] then [] else Trends(entries[..|entries| - 1]) + [entries[|entries| - 1].1.trend]
  }

  /** `trends.count(t)`. */
  function Count(ts: seq<Trend>, t: Trend): (n: nat)
    ensures n <= |ts|
  {
    if ts == [] then 0 else Count(ts[..|ts| - 1], t) + (if ts[|ts| - 1] == t then 1 else 0)
  }

  function OverallOf(ts: seq<Trend>): OverallTrend
  {
    if Count(ts, Bullish) > Count(ts, Bearish) then OverallBullish
    else if Count(ts, Bearish) > Count(ts, Bullish) then OverallBearish
    else Mixed
  }

  /** `trends.count(t)` is the multiplicity of `t` among the trends. */
  lemma {:induction false} CountMultiset(ts: seq<Trend>, t: Trend)
    ensures Count(ts, t) == multiset(ts)[t]
  {
    if ts != [] {
      var init := ts[..|ts| - 1];
      CountMultiset(init, t);
      assert ts == init + [ts[|ts| - 1]];
    }
  }

  /** The overall trend is a majority vote: it depends only on how many
      timeframes lean each way, not on their order, a tie between bullish
      and bearish is mixed, and swapping every bullish for a bearish
      timeframe (and back) swaps the verdict. */
  lemma OverallOfMajority(a: seq<Trend>, b: seq<Trend>)
    ensures multiset(a) == multiset(b) ==> OverallOf(a) == OverallOf(b)
    ensures OverallOf(a) == Mixed <==> Count(a, Bullish) == Count(a, Bearish)
    ensures multiset(b)[Bullish] == multiset(a)[Bearish] && multiset(b)[Bearish] == multiset(a)[Bullish] ==>
      (OverallOf(a) == OverallBullish <==> OverallOf(b) == OverallBearish)
  {
    CountMultiset(a, Bullish);
    CountMultiset(a, Bearish);
    CountMultiset(b, Bullish);
    CountMultiset(b, Bearish);
  }

  /** `len(set(trends)) == 1`. */
  function Agreement(ts: seq<Trend>): bool
  {
    |set t | t in ts| == 1
  }

  /** The timeframes come as a dictionary, so no name appears twice. */
  predicate DistinctNames(data: seq<(string, seq<Candle>)>)
  {
    forall i, j :: 0 <= i < j < |data| ==> data[i].0 != data[j].0
  }

  /** The names of the given timeframes. */
  ghost function Names(data: seq<(string, seq<Candle>)>): set<string>
  {
    set i | 0 <= i < |data| :: data[i].0
  }

  /** `analyze_multiple_timeframes` on a dictionary of candle series. */
  function MultiTimeframeOf(data: seq<(string, seq<Candle>)>): Result<MultiTimeframe>
    requires DistinctNames(data)
  {
    var entries := TimeframeEntries(data);
    if entries.Raises? then Raises(entries.fault)
    else
      var ts := Trends(entries.value);
      Ok(MultiTimeframe(Some(entries.value), OverallOf(ts), Agreement(ts)))
  }

  /** The timeframes agree exactly when there is at least one and all of
      them share the first one's trend. */
  lemma AgreementIff(ts: seq<Trend>)
    ensures Agreement(ts) <==> ts != [] && forall i :: 0 <= i < |ts| ==> ts[i] == ts[0]
  {
    var s := set t | t in ts;
    if ts != [] && forall i :: 0 <= i < |ts| ==> ts[i] == ts[0] {
      assert s == {ts[0]};
    }
    if Agreement(ts) {
      assert ts[0] in s;
      forall i | 0 <= i < |ts| ensures ts[i] == ts[0] {
        if ts[i] != ts[0] {
          assert {ts[0], ts[i]} <= s;
          assert |{ts[0], ts[i]}| == 2;
          SubsetCard({ts[0], ts[i]}, s);
        }
      }
    }
  }

  lemma SubsetCard(a: set<Trend>, b: set<Trend>)
    requires a <= b
    ensures |a| <= |b|
  {
    assert b == a + (b - a);
  }

  /** When every trend is `t`, `t` is counted once per entry and nothing
      else is counted. */
  lemma {:induction false} CountUniform(ts: seq<Trend>, t: Trend, u: Trend)
    requires forall i :: 0 <= i < |ts| ==> ts[i] == t
    ensures Count(ts, t) == |ts|
    ensures u != t ==> Count(ts, u) == 0
  {
    if ts != [] {
      CountUniform(ts[..|ts| - 1], t, u);
    }
  }

  /** When all timeframes agree, the overall trend is their common trend
      (and `Mixed` when they all move sideways). */
  lemma AgreedOverall(ts: seq<Trend>)
    requires Agreement(ts)
    ensures ts != []
    ensures ts[0] == Bullish ==> OverallOf(ts) == OverallBullish
    ensures ts[0] == Bearish ==> OverallOf(ts) == OverallBearish
    ensures ts[0] == Sideways ==> OverallOf(ts) == Mixed
  {
    AgreementIff(ts);
    CountUniform(ts, ts[0], Bullish);
    CountUniform(ts, ts[0], Bearish);
  }

  /** Every entry is named after a given timeframe and no timeframe is
      entered twice, so each one counts once towards the overall trend. */
  lemma {:induction false} TimeframeEntriesDistinct(data: seq<(string, seq<Candle>)>)
    requires DistinctNames(data) && TimeframeEntries(data).Ok?
    ensures var e := TimeframeEntries(data).value;
      (forall j :: 0 <= j < |e| ==> e[j].0 in Names(data)) &&
      (forall j, k :: 0 <= j < k < |e| ==> e[j].0 != e[k].0)
  {
    if data != [] {
      var front := data[..|data| - 1];
      var name := data[|data| - 1].0;
      TimeframeEntriesLast(data);
      assert DistinctNames(front) by {
        forall i, j | 0 <= i < j < |front| ensures front[i].0 != front[j].0 {
          assert front[i] == data[i] && front[j] == data[j];
        }
      }
      TimeframeEntriesDistinct(front);
      assert Names(front) <= Names(data) by {
        forall n | n in Names(front) ensures n in Names(data) {
          var i :| 0 <= i < |front| && front[i].0 == n;
          assert data[i].0 == n;
        }
      }
      assert name !in Names(front) by {
        forall i | 0 <= i < |front| ensures front[i].0 != name {
          assert front[i] == data[i];
        }
      }
      assert name in Names(data);
      AppendFreshName(TimeframeEntries(front).value, TimeframeEntries(data).value, name, Names(front), Names(data));
    }
  }

  /** The entries of a non-empty list extend those of its front by at most
      one entry, named after the last timeframe. */
  lemma TimeframeEntriesLast(data: seq<(string, seq<Candle>)>)
    requires data != [] && TimeframeEntries(data).Ok?
    ensures var f := TimeframeEntries(data[..|data| - 1]);
      var e := TimeframeEntries(data).value;
      f.Ok? && (e == f.value || e == f.value + [(data[|data| - 1].0, e[|e| - 1].1)])
  {
  }

  /** Appending an entry under a name new to the old entries keeps the
      names distinct and within the larger set of names. */
  lemma AppendFreshName<T>(f: seq<(string, T)>, e: seq<(string, T)>, name: string,
                           before: set<string>, after: set<string>)
    requires before <= after && name in after && name !in before
    requires forall j :: 0 <= j < |f| ==> f[j].0 in before
    requires forall j, k :: 0 <= j < k < |f| ==> f[j].0 != f[k].0
    requires e == f || (e != [] && e == f + [(name, e[|e| - 1].1)])
    ensures forall j :: 0 <= j < |e| ==> e[j].0 in after
    ensures forall j, k :: 0 <= j < k < |e| ==> e[j].0 != e[k].0
  {
  }

  /** One more timeframe: too short a series is skipped, a trend is
      appended and a fault is passed on. */
  lemma TimeframeEntriesStep(data: seq<(string, seq<Candle>)>, i: nat, entries: seq<(string, TimeframeTrend)>)
    requires i < |data| && TimeframeEntries(data[..i]) == Ok(entries)
    ensures |data[i].1| < 10 ==> TimeframeEntries(data[..i + 1]) == Ok(entries)
    ensures |data[i].1| >= 10 && SeriesTrend(Closes(data[i].1)).Ok? ==>
      TimeframeEntries(data[..i + 1]) == Ok(entries + [(data[i].0, SeriesTrend(Closes(data[i].1)).value)])
    ensures |data[i].1| >= 10 && SeriesTrend(Closes(data[i].1)).Raises? ==>
      TimeframeEntries(data[..i + 1]) == Raises(SeriesTrend(Closes(data[i].1)).fault)
  {
    assert data[..i + 1][..i] == data[..i];
  }

  /** `analyze_multiple_timeframes`: one pass over the timeframes. */
  method AnalyzeMultipleTimeframes(data: seq<(string, seq<Candle>)>) returns (r: Result<MultiTimeframe>)
    requires DistinctNames(data)
    ensures r == MultiTimeframeOf(data)
  {
    var entries: seq<(string, TimeframeTrend)> := [];
    for i := 0 to |data|
      invariant TimeframeEntries(data[..i]) == Ok(entries)
    {
      TimeframeEntriesStep(data, i, entries);
      var (name, ks) := data[i];
      if |ks| < 10 {
        continue;
      }
      var t := SeriesTrend(Closes(ks));
      if t.Raises? {
        TimeframeEntriesRaisesStays(data, i + 1);
        return Raises(t.fault);
      }
      entries := entries + [(name, t.value)];
    }
    assert data[..|data|] == data;
    var ts := Trends(entries);
    r := Ok(MultiTimeframe(Some(entries), OverallOf(ts), Agreement(ts)));
  }

  /** Once a prefix raises, the whole input raises the same fault. */
  lemma {:induction false} TimeframeEntriesRaisesStays(data: seq<(string, seq<Candle>)>, n: nat)
    requires n <= |data| && TimeframeEntries(data[..n]).Raises?
    ensures TimeframeEntries(data) == TimeframeEntries(data[..n])
    decreases |data| - n
  {
    if n < |data| {
      assert data[..n + 1][..n] == data[..n];
      TimeframeEntriesRaisesStays(data, n + 1);
    } else {
      assert data[..n] == data;
    }
  }

  // ---------------------------------------------------------------------
  // Signal labels and the comprehensive snapshot
  // ---------------------------------------------------------------------

  datatype RsiSignal = Overbought | Oversold | NeutralRsi
  datatype MacdSignal = MacdBullish | Strengthening | MacdBearish | Weakening
  datatype BandZone = UpperZone | LowerZone | MiddleZone
  datatype VwapSide = Above | Below

  function RsiSignalOf(rsi: real): (s: RsiSignal)
    ensures s == Overbought <==> rsi > 70.0
    ensures s == Oversold <==> rsi < 30.0
  {
    if rsi > 70.0 then Overbought else if rsi < 30.0 then Oversold else NeutralRsi
  }

  function MacdSignalOf(m: Macd): MacdSignal
  {
    if m.histogram > 0.0 then (if m.macd > m.signal then MacdBullish else Strengthening)
    else (if m.macd < m.signal then MacdBearish else Weakening)
  }

  /** Because the histogram is the MACD line minus the signal line, the
      "strengthening" label is never produced, "weakening" appears exactly
      when the two lines coincide, and otherwise the label follows the
      sign of the histogram. */
  lemma MacdSignalOfCalculated(prices: seq<real>, macdLine: real, signalLine: real)
    ensures var m := CalculateMacd(prices, macdLine, signalLine);
      && MacdSignalOf(m) != Strengthening
      && (MacdSignalOf(m) == Weakening <==> m.histogram == 0.0)
      && (MacdSignalOf(m) == MacdBullish <==> m.histogram > 0.0)
  {
  }

  function BandZoneOf(position: real): (z: BandZone)
    ensures z == UpperZone <==> position > 0.8
    ensures z == LowerZone <==> position < 0.2
  {
    if position > 0.8 then UpperZone else if position < 0.2 then LowerZone else MiddleZone
  }

  /** The output of `comprehensive_analysis` for non-empty candles. */
  datatype Snapshot = Snapshot(
    rsi: real, rsiSignal: RsiSignal,
    macd: Macd, macdSignal: MacdSignal,
    bands: Bands, bandZone: BandZone,
    volume: VolumeProfile,
    levels: SupportResistance,
    vsVwap: VwapSide, current: real,
    multiTimeframe: MultiTimeframe)

  /** The placeholder used when no multi-timeframe data is supplied. */
  const NoMultiTimeframe := MultiTimeframe(None, UnknownTrend, false)

  /** `comprehensive_analysis`: `None` for no candles (the empty dict).
      `macdLine`, `signalLine` and `std` are the library-computed EMA and
      rolling deviation values. */
  function ComprehensiveAnalysisOf(klines: seq<Candle>, mtf: seq<(string, seq<Candle>)>,
                                   macdLine: real, signalLine: real, std: real): (r: Result<Option<Snapshot>>)
    requires std >= 0.0 && DistinctNames(mtf)
    ensures klines == [] <==> r == Ok(None)
    ensures r.Ok? && r.value.Some? ==> var s := r.value.value;
      && 0.0 <= s.rsi <= 100.0
      && s.current == klines[|klines| - 1].close
      && (s.vsVwap == Above <==> s.current > s.volume.vwap)
      && (mtf == [] ==> s.multiTimeframe == NoMultiTimeframe)
      && (mtf != [] ==> MultiTimeframeOf(mtf).Ok? && s.multiTimeframe == MultiTimeframeOf(mtf).value)
      && SupportResistanceOf(klines).Ok? && s.levels == SupportResistanceOf(klines).value
      && s.rsi == Rsi(Closes(klines), 14) && s.rsiSignal == RsiSignalOf(s.rsi)
      && s.macd == CalculateMacd(Closes(klines), macdLine, signalLine) && s.macdSignal == MacdSignalOf(s.macd)
      && s.bands == BollingerBands(Closes(klines), 20, 2.0, std) && s.bandZone == BandZoneOf(s.bands.position)
      && s.volume == VolumeProfileOf(klines)
    ensures r.Raises? <==> klines != [] && (SupportResistanceOf(klines).Raises?
                                           || (mtf != [] && MultiTimeframeOf(mtf).Raises?))
  {
    if klines == [] then Ok(None)
    else
      var levels := SupportResistanceOf(klines);
      var multi := if mtf == [] then Ok(NoMultiTimeframe) else MultiTimeframeOf(mtf);
      if levels.Raises? then Raises(levels.fault)
      else if multi.Raises? then Raises(multi.fault)
      else Ok(Some(SnapshotOf(klines, macdLine, signalLine, std, levels.value, multi.value)))
  }

  /** The snapshot of the indicators of non-empty candles, given their
      levels and timeframe summary. */
  function SnapshotOf(klines: seq<Candle>, macdLine: real, signalLine: real, std: real,
                      levels: SupportResistance, multi: MultiTimeframe): (s: Snapshot)
    requires std >= 0.0 && klines != []
    ensures 0.0 <= s.rsi <= 100.0
    ensures s.current == klines[|klines| - 1].close
    ensures s.vsVwap == Above <==> s.current > s.volume.vwap
    ensures s.multiTimeframe == multi
    ensures s.rsi == Rsi(Closes(klines), 14) && s.rsiSignal == RsiSignalOf(s.rsi)
    ensures s.macd == CalculateMacd(Closes(klines), macdLine, signalLine) && s.macdSignal == MacdSignalOf(s.macd)
    ensures s.bands == BollingerBands(Closes(klines), 20, 2.0, std) && s.bandZone == BandZoneOf(s.bands.position)
    ensures s.volume == VolumeProfileOf(klines) && s.levels == levels
  {
    var closes := Closes(klines);
    var rsi := Rsi(closes, 14);
    var macd := CalculateMacd(closes, macdLine, signalLine);
    var bands := BollingerBands(closes, 20, 2.0, std);
    var volume := VolumeProfileOf(klines);
    var current := closes[|closes| - 1];
    Snapshot(rsi, RsiSignalOf(rsi), macd, MacdSignalOf(macd), bands, BandZoneOf(bands.position),
             volume, levels, if current > volume.vwap then Above else Below, current, multi)
  }

  /** `comprehensive_analysis`, running the indicator methods in order. */
  method ComprehensiveAnalysis(klines: seq<Candle>, mtf: seq<(string, seq<Candle>)>,
                               macdLine: real, signalLine: real, std: real) returns (r: Result<Option<Snapshot>>)
    requires std >= 0.0 && DistinctNames(mtf)
    ensures r == ComprehensiveAnalysisOf(klines, mtf, macdLine, signalLine, std)
  {
    if klines == [] {
      return Ok(None);
    }
    var closes := Closes(klines);
    var rsi := Rsi(closes, 14);
    var macd := CalculateMacd(closes, macdLine, signalLine);
    var bands := BollingerBands(closes, 20, 2.0, std);
    var volume := CalculateVolumeProfile(klines);
    var levels := CalculateSupportResistance(klines);
    if levels.Raises? {
      return Raises(levels.fault);
    }
    var multi := Ok(NoMultiTimeframe);
    if mtf != [] {
      multi := AnalyzeMultipleTimeframes(mtf);
      if multi.Raises? {
        return Raises(multi.fault);
      }
    }
    var current := closes[|closes| - 1];
    var side := if current > volume.vwap then Above else Below;
    var snapshot := Snapshot(rsi, RsiSignalOf(rsi), macd, MacdSignalOf(macd), bands, BandZoneOf(bands.position),
                             volume, levels.value, side, current, multi.value);
    assert snapshot == SnapshotOf(klines, macdLine, signalLine, std, levels.value, multi.value);
    assert multi == if mtf == [] then Ok(NoMultiTimeframe) else MultiTimeframeOf(mtf);
    r := Ok(Some(snapshot));
  }
}
