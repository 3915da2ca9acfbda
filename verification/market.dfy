/** Values shared by the whole decision path: optional dictionary entries,
    OHLCV candles and the market-data snapshot the components read. */
module Market {

  /** A dictionary entry that may be missing. */
  datatype Option<+T> = None | Some(value: T) {
    /** `dict.get(key, default)` */
    function GetOr(default: T): T {
      match this
      case Some(v) => v
      case None => default
    }
  }

  /** An exception the source raises: a division by zero, or a name read
      before any assignment to it. */
  datatype Fault = ZeroDivision | UnboundVariable

  /** A computation that either yields a value or raises. */
  datatype Result<+T> = Ok(value: T) | Raises(fault: Fault)

  /** One OHLCV bar; timestamps are whole seconds. */
  datatype Candle = Candle(timestamp: int, open: real, high: real, low: real, close: real, volume: real)

  /** The market-data dictionary: every key may be absent, and each reader
      applies its own default. */
  datatype MarketData = MarketData(
    symbol: Option<string>,
    currentPrice: Option<real>,
    change24h: Option<real>,
    volume24h: Option<real>)

  function Abs(x: real): (r: real)
    ensures r >= 0.0 && (r == x || r == -x)
  {
    if x < 0.0 then -x else x
  }

  function Min(a: real, b: real): (r: real)
    ensures r <= a && r <= b && (r == a || r == b)
  {
    if a <= b then a else b
  }

  function Max(a: real, b: real): (r: real)
    ensures r >= a && r >= b && (r == a || r == b)
  {
    if a >= b then a else b
  }

  /** Python's `xs[-n:]`: the last `n` elements, or all of them. */
  function LastN<T>(xs: seq<T>, n: nat): (r: seq<T>)
    ensures |r| == if |xs| < n then |xs| else n
    ensures r == xs[|xs| - |r|..]
  {
    if |xs| <= n then xs else xs[|xs| - n..]
  }

  function Closes(ks: seq<Candle>): (r: seq<real>)
    ensures |r| == |ks| && forall i :: 0 <= i < |ks| ==> r[i] == ks[i].close
  {
    if ks == [] then [] else Closes(ks[..|ks| - 1]) + [ks[|ks| - 1].close]
  }

  function Highs(ks: seq<Candle>): (r: seq<real>)
    ensures |r| == |ks| && forall i :: 0 <= i < |ks| ==> r[i] == ks[i].high
  {
    if ks == [] then [] else Highs(ks[..|ks| - 1]) + [ks[|ks| - 1].high]
  }

  function Lows(ks: seq<Candle>): (r: seq<real>)
    ensures |r| == |ks| && forall i :: 0 <= i < |ks| ==> r[i] == ks[i].low
  {
    if ks == [] then [] else Lows(ks[..|ks| - 1]) + [ks[|ks| - 1].low]
  }

  function Volumes(ks: seq<Candle>): (r: seq<real>)
    ensures |r| == |ks| && forall i :: 0 <= i < |ks| ==> r[i] == ks[i].volume
  {
    if ks == [] then [] else Volumes(ks[..|ks| - 1]) + [ks[|ks| - 1].volume]
  }

  /** Sum of a sequence of reals, accumulated from the front. */
  function Sum(xs: seq<real>): real
  {
    if xs == [] then 0.0 else Sum(xs[..|xs| - 1]) + xs[|xs| - 1]
  }

  lemma {:induction false} SumAppend(xs: seq<real>, ys: seq<real>)
    ensures Sum(xs + ys) == Sum(xs) + Sum(ys)
  {
    if ys == [] {
      assert xs + ys == xs;
    } else {
      assert (xs + ys)[..|xs + ys| - 1] == xs + ys[..|ys| - 1];
      SumAppend(xs, ys[..|ys| - 1]);
    }
  }

  lemma {:induction false} SumNonNegative(xs: seq<real>)
    requires forall i :: 0 <= i < |xs| ==> xs[i] >= 0.0
    ensures Sum(xs) >= 0.0
  {
    if xs != [] {
      SumNonNegative(xs[..|xs| - 1]);
    }
  }

  /** `a * x`, named so that products stay opaque to linear reasoning. */
  function Times(a: real, x: real): real
  {
    a * x
  }

  function Scaled(a: real, xs: seq<real>): (r: seq<real>)
    ensures |r| == |xs| && forall i :: 0 <= i < |xs| ==> r[i] == Times(a, xs[i])
  {
    if xs == [] then [] else Scaled(a, xs[..|xs| - 1]) + [Times(a, xs[|xs| - 1])]
  }

  lemma Distribute(a: real, x: real, y: real)
    ensures Times(a, x + y) == Times(a, x) + Times(a, y)
  {
  }

  lemma {:induction false} SumScaled(a: real, xs: seq<real>)
    ensures Sum(Scaled(a, xs)) == Times(a, Sum(xs))
  {
    if xs != [] {
      var n := |xs| - 1;
      SumScaled(a, xs[..n]);
      Distribute(a, Sum(xs[..n]), xs[n]);
    }
  }

  lemma {:induction false} SumMono(xs: seq<real>, ys: seq<real>)
    requires |xs| == |ys| && forall i :: 0 <= i < |xs| ==> xs[i] <= ys[i]
    ensures Sum(xs) <= Sum(ys)
  {
    if xs != [] {
      SumMono(xs[..|xs| - 1], ys[..|ys| - 1]);
    }
  }
}
