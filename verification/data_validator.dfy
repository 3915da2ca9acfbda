/** The candle data validator: it reports repeated timestamps, holes
    between consecutive timestamps, inconsistent OHLC prices, price jumps of
    more than 50% and volumes that are negative or far above the median. */
module DataValidator {
  import opened Market

  // ---------------------------------------------------------------------
  // Python's `sorted(xs, key=...)`, as a stable insertion sort
  // ---------------------------------------------------------------------

  predicate SortedBy<T>(s: seq<T>, key: T -> real)
  {
    forall i, j :: 0 <= i < j < |s| ==> key(s[i]) <= key(s[j])
  }

  function Insert<T>(x: T, s: seq<T>, key: T -> real): (r: seq<T>)
    requires SortedBy(s, key)
    ensures SortedBy(r, key)
    ensures multiset(r) == multiset(s) + multiset{x}
    ensures |r| == |s| + 1 && (r[0] == x || (s != [] && r[0] == s[0]))
  {
    if s == [] then [x]
    else if key(x) <= key(s[0]) then
      ConsSorted(x, s, key);
      [x] + s
    else
      SortedTail(s, key);
      var t := Insert(x, s[1..], key);
      InsertStep(x, s, t, key);
      [s[0]] + t
  }

  /** Putting the head back in front of the tail with `x` inserted keeps
      the order and the elements. */
  lemma InsertStep<T>(x: T, s: seq<T>, t: seq<T>, key: T -> real)
    requires s != [] && SortedBy(s, key) && key(s[0]) < key(x)
    requires SortedBy(t, key) && multiset(t) == multiset(s[1..]) + multiset{x}
    requires |t| == |s| && (t[0] == x || (s[1..] != [] && t[0] == s[1..][0]))
    ensures SortedBy([s[0]] + t, key)
    ensures multiset([s[0]] + t) == multiset(s) + multiset{x}
  {
    assert key(s[0]) <= key(t[0]);
    ConsSorted(s[0], t, key);
    assert s == [s[0]] + s[1..];
  }

  /** The tail of a sorted sequence is sorted. */
  lemma SortedTail<T>(s: seq<T>, key: T -> real)
    requires s != [] && SortedBy(s, key)
    ensures SortedBy(s[1..], key)
  {
    forall i, j | 0 <= i < j < |s| - 1
      ensures key(s[1..][i]) <= key(s[1..][j])
    {
      assert s[1..][i] == s[i + 1] && s[1..][j] == s[j + 1];
    }
  }

  /** An element no larger than the head of a sorted sequence may go in
      front of it. */
  lemma ConsSorted<T>(y: T, t: seq<T>, key: T -> real)
    requires SortedBy(t, key) && (t == [] || key(y) <= key(t[0]))
    ensures SortedBy([y] + t, key)
  {
    var r := [y] + t;
    forall i, j | 0 <= i < j < |r|
      ensures key(r[i]) <= key(r[j])
    {
      if i == 0 && j > 1 {
        assert key(t[0]) <= key(t[j - 1]);
      }
    }
  }

  /** The elements of `s` in ascending key order; equal keys keep their
      original order. */
  function SortBy<T>(s: seq<T>, key: T -> real): (r: seq<T>)
    ensures |r| == |s|
    ensures SortedBy(r, key)
    ensures multiset(r) == multiset(s)
  {
    if s == [] then []
    else
      assert s == [s[0]] + s[1..];
      Insert(s[0], SortBy(s[1..], key), key)
  }

  function TimestampKey(c: Candle): real
  {
    c.timestamp as real
  }

  function VolumeKey(v: real): real
  {
    v
  }

  // ---------------------------------------------------------------------
  // Duplicates
  // ---------------------------------------------------------------------

  /** A record whose timestamp already occurred earlier in the input. */
  datatype Duplicate = Duplicate(index: nat, timestamp: int, data: Candle)

  /** The timestamps of `ks`, as `seen_timestamps` holds them. */
  function Stamps(ks: seq<Candle>): (r: set<int>)
    ensures forall t :: t in r <==> exists j :: 0 <= j < |ks| && ks[j].timestamp == t
  {
    if ks == [] then {} else Stamps(ks[..|ks| - 1]) + {ks[|ks| - 1].timestamp}
  }

  /** Index `i` repeats the timestamp of some earlier index. */
  predicate SeenBefore(ks: seq<Candle>, i: nat)
    requires i < |ks|
  {
    exists j :: 0 <= j < i && ks[j].timestamp == ks[i].timestamp
  }

  /** `_check_duplicates`: every repeated index is reported once, in index
      order, and a first occurrence never is. */
  function Duplicates(ks: seq<Candle>): (r: seq<Duplicate>)
    ensures |r| <= |ks|
  {
    if ks == [] then []
    else
      var n := |ks| - 1;
      Duplicates(ks[..n]) + if ks[n].timestamp in Stamps(ks[..n]) then [Duplicate(n, ks[n].timestamp, ks[n])] else []
  }

  lemma SeenBeforePrefix(ks: seq<Candle>, n: nat, i: nat)
    requires i < n <= |ks|
    ensures SeenBefore(ks[..n], i) <==> SeenBefore(ks, i)
  {
    if SeenBefore(ks, i) {
      var j :| 0 <= j < i && ks[j].timestamp == ks[i].timestamp;
      assert ks[..n][j] == ks[j];
    }
  }

  /** Every entry of `r` is a repeated index of `ks`, with its record. */
  predicate DuplicatesSound(ks: seq<Candle>, r: seq<Duplicate>)
  {
    forall k :: 0 <= k < |r| ==>
      r[k].index < |ks| && r[k].data == ks[r[k].index] &&
      r[k].timestamp == ks[r[k].index].timestamp && SeenBefore(ks, r[k].index)
  }

  /** Every repeated index of `ks` has an entry in `r`. */
  predicate DuplicatesComplete(ks: seq<Candle>, r: seq<Duplicate>)
  {
    forall i :: 0 <= i < |ks| && SeenBefore(ks, i) ==> exists k :: 0 <= k < |r| && r[k].index == i
  }

  predicate DuplicatesIncreasing(r: seq<Duplicate>)
  {
    forall k, l :: 0 <= k < l < |r| ==> r[k].index < r[l].index
  }

  /** The last record is reported after the others exactly when its
      timestamp occurred before. */
  lemma DuplicatesLast(ks: seq<Candle>)
    requires ks != []
    ensures var n := |ks| - 1;
      Duplicates(ks) == Duplicates(ks[..n])
        + if SeenBefore(ks, n) then [Duplicate(n, ks[n].timestamp, ks[n])] else []
  {
    var n := |ks| - 1;
    var front := ks[..n];
    if SeenBefore(ks, n) {
      var j :| 0 <= j < n && ks[j].timestamp == ks[n].timestamp;
      assert front[j] == ks[j];
    }
  }

  lemma {:induction false} DuplicatesSoundness(ks: seq<Candle>)
    ensures DuplicatesSound(ks, Duplicates(ks))
  {
    if ks != [] {
      var n := |ks| - 1;
      var front := ks[..n];
      DuplicatesSoundness(front);
      DuplicatesLast(ks);
      var earlier := Duplicates(front);
      var r := Duplicates(ks);
      forall k | 0 <= k < |r|
        ensures r[k].index < |ks| && r[k].data == ks[r[k].index] &&
          r[k].timestamp == ks[r[k].index].timestamp && SeenBefore(ks, r[k].index)
      {
        if k < |earlier| {
          assert r[k] == earlier[k];
          SeenBeforePrefix(ks, n, earlier[k].index);
        }
      }
    }
  }

  lemma {:induction false} DuplicatesCompleteness(ks: seq<Candle>)
    ensures DuplicatesComplete(ks, Duplicates(ks))
  {
    if ks != [] {
      var n := |ks| - 1;
      var front := ks[..n];
      DuplicatesCompleteness(front);
      DuplicatesLast(ks);
      var earlier := Duplicates(front);
      var r := Duplicates(ks);
      forall i | 0 <= i < |ks| && SeenBefore(ks, i)
        ensures exists k :: 0 <= k < |r| && r[k].index == i
      {
        if i < n {
          SeenBeforePrefix(ks, n, i);
          var k :| 0 <= k < |earlier| && earlier[k].index == i;
          assert r[k] == earlier[k];
        } else {
          assert r[|r| - 1].index == n;
        }
      }
    }
  }

  lemma {:induction false} DuplicatesOrdered(ks: seq<Candle>)
    ensures DuplicatesIncreasing(Duplicates(ks))
  {
    if ks != [] {
      var n := |ks| - 1;
      var front := ks[..n];
      DuplicatesOrdered(front);
      DuplicatesSoundness(front);
      DuplicatesLast(ks);
      var earlier := Duplicates(front);
      var r := Duplicates(ks);
      forall k, l | 0 <= k < l < |r|
        ensures r[k].index < r[l].index
      {
        assert r[k] == earlier[k];
        if l < |earlier| {
          assert r[l] == earlier[l];
        }
      }
    }
  }

  /** Every repeated index is reported once, in index order, with its
      record; a first occurrence never is. */
  lemma DuplicatesCorrect(ks: seq<Candle>)
    ensures DuplicatesSound(ks, Duplicates(ks))
    ensures DuplicatesComplete(ks, Duplicates(ks))
    ensures DuplicatesIncreasing(Duplicates(ks))
  {
    DuplicatesSoundness(ks);
    DuplicatesCompleteness(ks);
    DuplicatesOrdered(ks);
  }

  method CheckDuplicates(data: seq<Candle>) returns (duplicates: seq<Duplicate>)
    ensures duplicates == Duplicates(data)
  {
    var seen: set<int> := {};
    duplicates := [];
    for i := 0 to |data|
      invariant seen == Stamps(data[..i])
      invariant duplicates == Duplicates(data[..i])
    {
      assert data[..i + 1][..i] == data[..i];
      var timestamp := data[i].timestamp;
      if timestamp in seen {
        duplicates := duplicates + [Duplicate(i, timestamp, data[i])];
      } else {
        seen := seen + {timestamp};
      }
    }
    assert data[..|data|] == data;
  }

  // ---------------------------------------------------------------------
  // Time gaps
  // ---------------------------------------------------------------------

  /** `_get_interval_timedelta`: the length of a known interval in seconds. */
  function IntervalSeconds(interval: string): (r: Option<nat>)
    ensures r.Some? ==> r.value >= 60 && r.value % 60 == 0
  {
    if interval == "1m" then Some(60)
    else if interval == "5m" then Some(300)
    else if interval == "15m" then Some(900)
    else if interval == "1h" then Some(3600)
    else if interval == "4h" then Some(14400)
    else if interval == "1d" then Some(86400)
    else None
  }

  /** Exactly the six intervals 1m, 5m, 15m, 1h, 4h and 1d are known. */
  lemma IntervalSecondsKnown(interval: string)
    ensures IntervalSeconds(interval).Some? <==> interval in {"1m", "5m", "15m", "1h", "4h", "1d"}
  {
  }

  /** A hole between two consecutive timestamps; all durations in seconds. */
  datatype Gap = Gap(previous: int, current: int, expected: nat, actual: int, missingPeriods: int)

  /** More than one and a half intervals separate `previous` and `current`. */
  predicate IsGap(previous: int, current: int, expected: nat)
  {
    2 * (current - previous) > 3 * expected
  }

  function GapBetween(previous: int, current: int, expected: nat): Gap
    requires expected > 0
  {
    var actual := current - previous;
    Gap(previous, current, expected, actual, actual / expected - 1)
  }

  /** The gaps between consecutive records of `cs`. */
  function GapsIn(cs: seq<Candle>, expected: nat): (r: seq<Gap>)
    requires expected > 0
  {
    if |cs| < 2 then []
    else
      var n := |cs| - 1;
      GapsIn(cs[..n], expected)
      + if IsGap(cs[n - 1].timestamp, cs[n].timestamp, expected)
        then [GapBetween(cs[n - 1].timestamp, cs[n].timestamp, expected)] else []
  }

  /** Every reported gap lies between a pair of neighbours more than one
      and a half intervals apart. */
  lemma {:induction false} GapsInSound(cs: seq<Candle>, expected: nat)
    requires expected > 0
    ensures forall g :: g in GapsIn(cs, expected) ==>
      (exists i :: 1 <= i < |cs| &&
        IsGap(cs[i - 1].timestamp, cs[i].timestamp, expected) &&
        g == GapBetween(cs[i - 1].timestamp, cs[i].timestamp, expected))
  {
    if |cs| >= 2 {
      var n := |cs| - 1;
      var front := cs[..n];
      GapsInSound(front, expected);
      var earlier := GapsIn(front, expected);
      forall g | g in GapsIn(cs, expected)
        ensures exists i :: (1 <= i < |cs| &&
          IsGap(cs[i - 1].timestamp, cs[i].timestamp, expected) &&
          g == GapBetween(cs[i - 1].timestamp, cs[i].timestamp, expected))
      {
        if g in earlier {
          var i :| 1 <= i < n && IsGap(front[i - 1].timestamp, front[i].timestamp, expected) &&
            g == GapBetween(front[i - 1].timestamp, front[i].timestamp, expected);
          assert front[i - 1] == cs[i - 1] && front[i] == cs[i];
        } else {
          assert g == GapBetween(cs[n - 1].timestamp, cs[n].timestamp, expected);
        }
      }
    }
  }

  /** Every pair of neighbours more than one and a half intervals apart is
      reported. */
  lemma {:induction false} GapsInComplete(cs: seq<Candle>, expected: nat)
    requires expected > 0
    ensures forall i :: 1 <= i < |cs| && IsGap(cs[i - 1].timestamp, cs[i].timestamp, expected) ==>
      GapBetween(cs[i - 1].timestamp, cs[i].timestamp, expected) in GapsIn(cs, expected)
  {
    if |cs| >= 2 {
      var n := |cs| - 1;
      var front := cs[..n];
      GapsInComplete(front, expected);
      var earlier := GapsIn(front, expected);
      var r := GapsIn(cs, expected);
      assert r[..|earlier|] == earlier;
      forall i | 1 <= i < |cs| && IsGap(cs[i - 1].timestamp, cs[i].timestamp, expected)
        ensures GapBetween(cs[i - 1].timestamp, cs[i].timestamp, expected) in r
      {
        if i < n {
          assert front[i - 1] == cs[i - 1] && front[i] == cs[i];
          var k :| 0 <= k < |earlier| && earlier[k] == GapBetween(cs[i - 1].timestamp, cs[i].timestamp, expected);
          assert r[k] == earlier[k];
        } else {
          assert r[|r| - 1] == GapBetween(cs[n - 1].timestamp, cs[n].timestamp, expected);
        }
      }
    }
  }

  /** A gap is reported for a pair of neighbours exactly when they are
      more than one and a half intervals apart. */
  lemma GapsInCorrect(cs: seq<Candle>, expected: nat)
    requires expected > 0
    ensures forall g :: g in GapsIn(cs, expected) ==>
      (exists i :: 1 <= i < |cs| &&
        IsGap(cs[i - 1].timestamp, cs[i].timestamp, expected) &&
        g == GapBetween(cs[i - 1].timestamp, cs[i].timestamp, expected))
    ensures forall i :: 1 <= i < |cs| && IsGap(cs[i - 1].timestamp, cs[i].timestamp, expected) ==>
      GapBetween(cs[i - 1].timestamp, cs[i].timestamp, expected) in GapsIn(cs, expected)
  {
    GapsInSound(cs, expected);
    GapsInComplete(cs, expected);
  }

  /** `_check_time_gaps`: gaps between consecutive records in timestamp
      order, none for fewer than two records or an unknown interval. */
  function TimeGaps(data: seq<Candle>, interval: string): seq<Gap>
  {
    if |data| < 2 then []
    else match IntervalSeconds(interval)
      case None => []
      case Some(expected) => GapsIn(SortBy(data, TimestampKey), expected)
  }

  lemma GapMissingPeriods(previous: int, current: int, expected: nat)
    requires expected > 0 && IsGap(previous, current, expected)
    ensures GapBetween(previous, current, expected).actual > 0
    ensures GapBetween(previous, current, expected).missingPeriods >= 0
    ensures var g := GapBetween(previous, current, expected);
      g.expected == expected && g.actual == g.current - g.previous &&
      g.missingPeriods == g.actual / g.expected - 1
  {
    var actual := current - previous;
    assert actual >= expected;
    DivAtLeastOne(actual, expected);
  }

  lemma DivAtLeastOne(x: int, d: int)
    requires 0 < d <= x
    ensures x / d >= 1
  {
  }

  /** Python's `sorted(data, key=timestamp)`: a permutation of the input
      in ascending timestamp order. */
  lemma SortByTimestamp(data: seq<Candle>)
    ensures multiset(SortBy(data, TimestampKey)) == multiset(data)
    ensures var sorted := SortBy(data, TimestampKey);
      forall i, j :: 0 <= i < j < |sorted| ==> sorted[i].timestamp <= sorted[j].timestamp
  {
    var sorted := SortBy(data, TimestampKey);
    forall i, j | 0 <= i < j < |sorted|
      ensures sorted[i].timestamp <= sorted[j].timestamp
    {
      assert TimestampKey(sorted[i]) <= TimestampKey(sorted[j]);
    }
  }

  /** Every gap between neighbours of `cs` is positive and misses
      floor(actual / expected) - 1 >= 0 periods. */
  lemma GapsInPeriods(cs: seq<Candle>, expected: nat)
    requires expected > 0
    ensures forall g :: g in GapsIn(cs, expected) ==>
      g.expected == expected && g.actual == g.current - g.previous && g.actual > 0 &&
      g.missingPeriods == g.actual / g.expected - 1 && g.missingPeriods >= 0
  {
    GapsInCorrect(cs, expected);
    forall g | g in GapsIn(cs, expected)
      ensures g.expected == expected && g.actual == g.current - g.previous && g.actual > 0 &&
        g.missingPeriods == g.actual / g.expected - 1 && g.missingPeriods >= 0
    {
      var i :| 1 <= i < |cs| && IsGap(cs[i - 1].timestamp, cs[i].timestamp, expected) &&
        g == GapBetween(cs[i - 1].timestamp, cs[i].timestamp, expected);
      GapMissingPeriods(cs[i - 1].timestamp, cs[i].timestamp, expected);
    }
  }

  /** Every reported gap is of the interval looked up and misses a
      non-negative number of periods. */
  lemma TimeGapsPeriods(data: seq<Candle>, interval: string)
    ensures forall g :: g in TimeGaps(data, interval) ==>
      IntervalSeconds(interval) == Some(g.expected) &&
      g.actual == g.current - g.previous && g.actual > 0 &&
      g.missingPeriods == g.actual / g.expected - 1 && g.missingPeriods >= 0
  {
    var e := IntervalSeconds(interval);
    if |data| >= 2 && e.Some? {
      GapsInPeriods(SortBy(data, TimestampKey), e.value);
    }
  }

  /** No gap is reported for fewer than two records or an unknown
      interval. */
  lemma NoTimeGaps(data: seq<Candle>, interval: string)
    requires |data| < 2 || IntervalSeconds(interval).None?
    ensures TimeGaps(data, interval) == []
  {
  }

  method CheckTimeGaps(data: seq<Candle>, interval: string) returns (gaps: seq<Gap>)
    ensures gaps == TimeGaps(data, interval)
  {
    if |data| < 2 {
      return [];
    }
    var expectedDelta := IntervalSeconds(interval);
    if expectedDelta.None? {
      return [];
    }
    var expected := expectedDelta.value;
    var sorted := SortBy(data, TimestampKey);
    gaps := [];
    for i := 1 to |sorted|
      invariant gaps == GapsIn(sorted[..i], expected)
    {
      GapsInStep(sorted, i, expected);
      var currentTime := sorted[i].timestamp;
      var previousTime := sorted[i - 1].timestamp;
      if IsGap(previousTime, currentTime, expected) {
        gaps := gaps + [GapBetween(previousTime, currentTime, expected)];
      }
    }
    assert sorted[..|sorted|] == sorted;
  }

  /** One more record adds at most the gap before it. */
  lemma GapsInStep(cs: seq<Candle>, i: nat, expected: nat)
    requires 1 <= i < |cs| && expected > 0
    ensures GapsIn(cs[..i + 1], expected) == GapsIn(cs[..i], expected)
      + if IsGap(cs[i - 1].timestamp, cs[i].timestamp, expected)
        then [GapBetween(cs[i - 1].timestamp, cs[i].timestamp, expected)] else []
  {
    assert cs[..i + 1][..i] == cs[..i];
  }

  // ---------------------------------------------------------------------
  // Prices
  // ---------------------------------------------------------------------

  datatype PriceIssue =
    | NonPositivePrice
    | HighBelowBody
    | LowAboveBody
    | HighBelowLow
    | AnomalousChange(change: real)

  datatype InvalidPrice = InvalidPrice(index: nat, timestamp: int, data: Candle, errors: seq<PriceIssue>)

  /** The checks on one candle alone, in the order they are made. */
  function OhlcIssues(c: Candle): seq<PriceIssue>
  {
    (if c.open > 0.0 && c.high > 0.0 && c.low > 0.0 && c.close > 0.0 then [] else [NonPositivePrice])
    + (if c.high < Max(c.open, c.close) then [HighBelowBody] else [])
    + (if c.low > Min(c.open, c.close) then [LowAboveBody] else [])
    + (if c.high < c.low then [HighBelowLow] else [])
  }

  /** A well-formed bar: positive prices, open and close inside [low, high]. */
  predicate WellFormed(c: Candle)
  {
    0.0 < c.low && c.low <= c.open <= c.high && c.low <= c.close <= c.high
  }

  /** A candle raises no OHLC issue exactly when it is well formed, and
      `HighBelowLow` never comes alone. */
  lemma OhlcIssuesIff(c: Candle)
    ensures OhlcIssues(c) == [] <==> WellFormed(c)
    ensures HighBelowLow in OhlcIssues(c) ==> HighBelowBody in OhlcIssues(c) || LowAboveBody in OhlcIssues(c)
  {
    var s := OhlcIssues(c);
    if HighBelowLow in s && HighBelowBody !in s {
      assert c.high >= Max(c.open, c.close);
      assert c.low > Min(c.open, c.close);
      assert LowAboveBody in s;
    }
  }

  /** The relative move from the previous close; Python raises on a zero
      previous close. */
  function JumpIssues(previousClose: real, close: real): (r: Result<seq<PriceIssue>>)
    ensures r.Raises? <==> previousClose == 0.0
  {
    if previousClose == 0.0 then Raises(ZeroDivision)
    else
      var change := Abs(close - previousClose) / previousClose;
      Ok(if change > 0.5 then [AnomalousChange(change)] else [])
  }

  /** Everything wrong with record `i`. */
  function PriceIssues(ks: seq<Candle>, i: nat): Result<seq<PriceIssue>>
    requires i < |ks|
  {
    if i == 0 then Ok(OhlcIssues(ks[0]))
    else match JumpIssues(ks[i - 1].close, ks[i].close)
      case Raises(f) => Raises(f)
      case Ok(jump) => Ok(OhlcIssues(ks[i]) + jump)
  }

  predicate ClosesNonZero(ks: seq<Candle>)
  {
    forall i :: 0 <= i < |ks| - 1 ==> ks[i].close != 0.0
  }

  /** `_check_price_validity`, raising on a zero previous close. */
  function PriceValidity(ks: seq<Candle>): Result<seq<InvalidPrice>>
  {
    if ks == [] then Ok([])
    else
      var n := |ks| - 1;
      match PriceValidity(ks[..n])
      case Raises(f) => Raises(f)
      case Ok(earlier) =>
        match PriceIssues(ks, n)
        case Raises(f) => Raises(f)
        case Ok(errors) =>
          Ok(earlier + if errors != [] then [InvalidPrice(n, ks[n].timestamp, ks[n], errors)] else [])
  }

  lemma PriceIssuesPrefix(ks: seq<Candle>, n: nat, i: nat)
    requires i < n <= |ks|
    ensures PriceIssues(ks[..n], i) == PriceIssues(ks, i)
  {
    assert ks[..n][i] == ks[i];
    if i > 0 {
      assert ks[..n][i - 1] == ks[i - 1];
    }
  }

  /** The price check raises exactly when some previous close is zero,
      and what it raises is a division by zero. */
  lemma {:induction false} PriceValidityRaisesIff(ks: seq<Candle>)
    ensures PriceValidity(ks).Raises? <==> !ClosesNonZero(ks)
    ensures PriceValidity(ks).Raises? ==> PriceValidity(ks).fault == ZeroDivision
  {
    if ks != [] {
      var n := |ks| - 1;
      PriceValidityRaisesIff(ks[..n]);
      assert ClosesNonZero(ks) <==> ClosesNonZero(ks[..n]) && (n == 0 || ks[n - 1].close != 0.0) by {
        if ClosesNonZero(ks[..n]) && (n == 0 || ks[n - 1].close != 0.0) {
          forall i | 0 <= i < |ks| - 1
            ensures ks[i].close != 0.0
          {
            if i < n - 1 {
              assert ks[..n][i] == ks[i];
            }
          }
        }
      }
    }
  }

  /** Every entry of `r` is a record of `ks` with issues, with its own data
      and exactly those issues. */
  predicate PricesSound(ks: seq<Candle>, r: seq<InvalidPrice>)
  {
    forall k :: 0 <= k < |r| ==>
      r[k].index < |ks| && r[k].data == ks[r[k].index] && r[k].timestamp == ks[r[k].index].timestamp &&
      PriceIssues(ks, r[k].index) == Ok(r[k].errors) && r[k].errors != []
  }

  /** Every record of `ks` with issues has an entry in `r`. */
  predicate PricesComplete(ks: seq<Candle>, r: seq<InvalidPrice>)
  {
    forall i :: 0 <= i < |ks| && PriceIssues(ks, i) != Ok([]) ==> exists k :: 0 <= k < |r| && r[k].index == i
  }

  predicate PricesIncreasing(r: seq<InvalidPrice>)
  {
    forall k, l :: 0 <= k < l < |r| ==> r[k].index < r[l].index
  }

  /** Without an exception, the last record is reported after the others
      exactly when it has issues. */
  lemma PriceValidityLast(ks: seq<Candle>)
    requires ks != [] && PriceValidity(ks).Ok?
    ensures var n := |ks| - 1;
      && PriceValidity(ks[..n]).Ok? && PriceIssues(ks, n).Ok?
      && PriceValidity(ks).value == PriceValidity(ks[..n]).value
        + if PriceIssues(ks, n).value != []
          then [InvalidPrice(n, ks[n].timestamp, ks[n], PriceIssues(ks, n).value)] else []
  {
  }

  lemma {:induction false} PriceValiditySound(ks: seq<Candle>)
    requires PriceValidity(ks).Ok?
    ensures PricesSound(ks, PriceValidity(ks).value)
  {
    if ks != [] {
      var n := |ks| - 1;
      var front := ks[..n];
      PriceValidityLast(ks);
      PriceValiditySound(front);
      var earlier := PriceValidity(front).value;
      var r := PriceValidity(ks).value;
      forall k | 0 <= k < |r|
        ensures r[k].index < |ks| && r[k].data == ks[r[k].index] && r[k].timestamp == ks[r[k].index].timestamp &&
          PriceIssues(ks, r[k].index) == Ok(r[k].errors) && r[k].errors != []
      {
        if k < |earlier| {
          assert r[k] == earlier[k];
          PriceIssuesPrefix(ks, n, earlier[k].index);
        }
      }
    }
  }

  lemma {:induction false} PriceValidityComplete(ks: seq<Candle>)
    requires PriceValidity(ks).Ok?
    ensures PricesComplete(ks, PriceValidity(ks).value)
  {
    if ks != [] {
      var n := |ks| - 1;
      var front := ks[..n];
      PriceValidityLast(ks);
      PriceValidityComplete(front);
      var earlier := PriceValidity(front).value;
      var r := PriceValidity(ks).value;
      forall i | 0 <= i < |ks| && PriceIssues(ks, i) != Ok([])
        ensures exists k :: 0 <= k < |r| && r[k].index == i
      {
        if i < n {
          PriceIssuesPrefix(ks, n, i);
          var k :| 0 <= k < |earlier| && earlier[k].index == i;
          assert r[k] == earlier[k];
        } else {
          assert r[|r| - 1].index == n;
        }
      }
    }
  }

  lemma {:induction false} PriceValidityIncreasing(ks: seq<Candle>)
    requires PriceValidity(ks).Ok?
    ensures PricesIncreasing(PriceValidity(ks).value)
  {
    if ks != [] {
      var n := |ks| - 1;
      var front := ks[..n];
      PriceValidityLast(ks);
      PriceValidityIncreasing(front);
      PriceValiditySound(front);
      var earlier := PriceValidity(front).value;
      var r := PriceValidity(ks).value;
      forall k, l | 0 <= k < l < |r|
        ensures r[k].index < r[l].index
      {
        assert r[k] == earlier[k];
        if l < |earlier| {
          assert r[l] == earlier[l];
        }
      }
    }
  }

  /** Without an exception, every record with an issue is reported once,
      in index order, with exactly its issues; no other record is. */
  lemma PriceValidityCorrect(ks: seq<Candle>)
    requires PriceValidity(ks).Ok?
    ensures var r := PriceValidity(ks).value;
      (forall k :: 0 <= k < |r| ==>
        r[k].index < |ks| && r[k].data == ks[r[k].index] && r[k].timestamp == ks[r[k].index].timestamp &&
        PriceIssues(ks, r[k].index) == Ok(r[k].errors) && r[k].errors != []) &&
      (forall i :: 0 <= i < |ks| && PriceIssues(ks, i) != Ok([]) ==>
        exists k :: 0 <= k < |r| && r[k].index == i) &&
      (forall k, l :: 0 <= k < l < |r| ==> r[k].index < r[l].index)
  {
    PriceValiditySound(ks);
    PriceValidityComplete(ks);
    PriceValidityIncreasing(ks);
  }

  method CheckPriceValidity(data: seq<Candle>) returns (r: Result<seq<InvalidPrice>>)
    ensures r == PriceValidity(data)
  {
    var invalidPrices: seq<InvalidPrice> := [];
    for i := 0 to |data|
      invariant PriceValidity(data[..i]) == Ok(invalidPrices)
    {
      var errors := OhlcIssues(data[i]);
      if i > 0 {
        var previousClose := data[i - 1].close;
        if previousClose == 0.0 {
          PriceValidityRaisesIff(data);
          return Raises(ZeroDivision);
        }
        var change := Abs(data[i].close - previousClose) / previousClose;
        if change > 0.5 {
          errors := errors + [AnomalousChange(change)];
        } else {
          assert errors == errors + [];
        }
      }
      assert PriceIssues(data, i) == Ok(errors);
      PriceValidityStep(data, i, invalidPrices, errors);
      if errors != [] {
        invalidPrices := invalidPrices + [InvalidPrice(i, data[i].timestamp, data[i], errors)];
      } else {
        assert invalidPrices == invalidPrices + [];
      }
    }
    assert data[..|data|] == data;
    return Ok(invalidPrices);
  }

  lemma PriceValidityStep(ks: seq<Candle>, i: nat, earlier: seq<InvalidPrice>, errors: seq<PriceIssue>)
    requires i < |ks| && PriceValidity(ks[..i]) == Ok(earlier) && PriceIssues(ks, i) == Ok(errors)
    ensures PriceValidity(ks[..i + 1]) ==
      Ok(earlier + if errors != [] then [InvalidPrice(i, ks[i].timestamp, ks[i], errors)] else [])
  {
    var front := ks[..i + 1];
    assert front[..i] == ks[..i];
    assert front[i] == ks[i];
    if i > 0 {
      assert front[i - 1] == ks[i - 1];
    }
    assert PriceIssues(front, i) == PriceIssues(ks, i);
  }

  // ---------------------------------------------------------------------
  // Volumes
  // ---------------------------------------------------------------------

  datatype VolumeIssue = NegativeVolume | AnomalousVolume(volume: real, median: real)

  datatype InvalidVolume = InvalidVolume(index: nat, timestamp: int, volume: real, errors: seq<VolumeIssue>)

  /** The strictly positive volumes, in input order. */
  function PositiveVolumes(ks: seq<Candle>): (r: seq<real>)
    ensures forall v :: v in r <==> v > 0.0 && exists i :: 0 <= i < |ks| && ks[i].volume == v
  {
    if ks == [] then []
    else PositiveVolumes(ks[..|ks| - 1]) + if ks[|ks| - 1].volume > 0.0 then [ks[|ks| - 1].volume] else []
  }

  /** Each positive volume occurs among the positive volumes exactly as
      often as among the candles' volumes, and no other value occurs. */
  lemma {:induction false} PositiveVolumesCounts(ks: seq<Candle>)
    ensures forall v :: multiset(PositiveVolumes(ks))[v] == if v > 0.0 then multiset(Volumes(ks))[v] else 0
  {
    if ks != [] {
      var init := ks[..|ks| - 1];
      PositiveVolumesCounts(init);
      assert Volumes(ks) == Volumes(init) + [ks[|ks| - 1].volume];
    }
  }

  /** Filtering keeps the order: the positive volumes of two runs of
      candles are those of the first followed by those of the second. */
  lemma {:induction false} PositiveVolumesConcat(a: seq<Candle>, b: seq<Candle>)
    ensures PositiveVolumes(a + b) == PositiveVolumes(a) + PositiveVolumes(b)
  {
    if b == [] {
      assert a + b == a;
    } else {
      var init := b[..|b| - 1];
      assert (a + b)[..|a + b| - 1] == a + init;
      PositiveVolumesConcat(a, init);
    }
  }

  /** Element `len // 2` of the sorted positive volumes; none when no
      volume is positive. */
  function MedianVolume(ks: seq<Candle>): Option<real>
  {
    var volumes := PositiveVolumes(ks);
    if volumes == [] then None else Some(SortBy(volumes, VolumeKey)[|volumes| / 2])
  }

  /** There is a median exactly when some volume is positive, and it is
      one of the positive volumes. */
  lemma MedianVolumeExists(ks: seq<Candle>)
    ensures MedianVolume(ks).None? <==> forall i :: 0 <= i < |ks| ==> ks[i].volume <= 0.0
    ensures MedianVolume(ks).Some? ==>
      MedianVolume(ks).value > 0.0 && exists i :: 0 <= i < |ks| && ks[i].volume == MedianVolume(ks).value
  {
    var volumes := PositiveVolumes(ks);
    if volumes == [] {
      forall i | 0 <= i < |ks|
        ensures ks[i].volume <= 0.0
      {
        assert ks[i].volume !in volumes;
      }
    } else {
      assert volumes[0] in volumes;
      var sorted := SortBy(volumes, VolumeKey);
      var m := sorted[|volumes| / 2];
      assert m in multiset(sorted);
      assert m in volumes;
    }
  }

  /** The median splits the sorted positive volumes at index `len // 2`:
      the elements before it are no larger and the rest no smaller. */
  lemma MedianVolumeSplits(ks: seq<Candle>)
    requires MedianVolume(ks).Some?
    ensures var m := MedianVolume(ks).value;
      var volumes := PositiveVolumes(ks);
      var sorted := SortBy(volumes, VolumeKey);
      multiset(sorted) == multiset(volumes) &&
      (forall i :: 0 <= i < |volumes| / 2 ==> sorted[i] <= m) &&
      (forall i :: |volumes| / 2 <= i < |volumes| ==> m <= sorted[i])
  {
    var volumes := PositiveVolumes(ks);
    var sorted := SortBy(volumes, VolumeKey);
    SortedSplit(sorted, |volumes| / 2);
  }

  lemma SortedSplit(sorted: seq<real>, mid: nat)
    requires SortedBy(sorted, VolumeKey) && mid < |sorted|
    ensures forall i :: 0 <= i < mid ==> sorted[i] <= sorted[mid]
    ensures forall i :: mid <= i < |sorted| ==> sorted[mid] <= sorted[i]
  {
    forall i | 0 <= i < mid
      ensures sorted[i] <= sorted[mid]
    {
      assert VolumeKey(sorted[i]) <= VolumeKey(sorted[mid]);
    }
    forall i | mid < i < |sorted|
      ensures sorted[mid] <= sorted[i]
    {
      assert VolumeKey(sorted[mid]) <= VolumeKey(sorted[i]);
    }
  }

  function VolumeIssues(volume: real, median: real): seq<VolumeIssue>
  {
    (if volume < 0.0 then [NegativeVolume] else [])
    + (if volume > median * 100.0 then [AnomalousVolume(volume, median)] else [])
  }

  predicate Outlier(volume: real, median: real)
  {
    volume < 0.0 || volume > median * 100.0
  }

  /** Records whose volume is negative or above a hundred times `median`. */
  function FlagVolumes(ks: seq<Candle>, median: real): seq<InvalidVolume>
  {
    if ks == [] then []
    else
      var n := |ks| - 1;
      var errors := VolumeIssues(ks[n].volume, median);
      FlagVolumes(ks[..n], median)
      + if errors != [] then [InvalidVolume(n, ks[n].timestamp, ks[n].volume, errors)] else []
  }

  /** Every entry of `r` is an outlier of `ks`, with its own volume and issues. */
  predicate FlagsSound(ks: seq<Candle>, median: real, r: seq<InvalidVolume>)
  {
    forall k :: 0 <= k < |r| ==>
      r[k].index < |ks| && r[k].volume == ks[r[k].index].volume &&
      r[k].timestamp == ks[r[k].index].timestamp &&
      r[k].errors == VolumeIssues(r[k].volume, median) && Outlier(r[k].volume, median)
  }

  /** Every outlier of `ks` has an entry in `r`. */
  predicate FlagsComplete(ks: seq<Candle>, median: real, r: seq<InvalidVolume>)
  {
    forall i :: 0 <= i < |ks| && Outlier(ks[i].volume, median) ==> exists k :: 0 <= k < |r| && r[k].index == i
  }

  predicate FlagsIncreasing(r: seq<InvalidVolume>)
  {
    forall k, l :: 0 <= k < l < |r| ==> r[k].index < r[l].index
  }

  /** The last record is flagged after the others exactly when it is an
      outlier. */
  lemma FlagVolumesStep(ks: seq<Candle>, median: real)
    requires ks != []
    ensures var n := |ks| - 1;
      FlagVolumes(ks, median) == FlagVolumes(ks[..n], median)
        + if Outlier(ks[n].volume, median)
          then [InvalidVolume(n, ks[n].timestamp, ks[n].volume, VolumeIssues(ks[n].volume, median))] else []
  {
  }

  lemma {:induction false} FlagVolumesSound(ks: seq<Candle>, median: real)
    ensures FlagsSound(ks, median, FlagVolumes(ks, median))
  {
    if ks != [] {
      var n := |ks| - 1;
      var front := ks[..n];
      FlagVolumesSound(front, median);
      FlagVolumesStep(ks, median);
      var earlier := FlagVolumes(front, median);
      var r := FlagVolumes(ks, median);
      forall k | 0 <= k < |r|
        ensures r[k].index < |ks| && r[k].volume == ks[r[k].index].volume &&
          r[k].timestamp == ks[r[k].index].timestamp &&
          r[k].errors == VolumeIssues(r[k].volume, median) && Outlier(r[k].volume, median)
      {
        if k < |earlier| {
          assert r[k] == earlier[k];
          assert front[earlier[k].index] == ks[earlier[k].index];
        }
      }
    }
  }

  lemma {:induction false} FlagVolumesComplete(ks: seq<Candle>, median: real)
    ensures FlagsComplete(ks, median, FlagVolumes(ks, median))
  {
    if ks != [] {
      var n := |ks| - 1;
      var front := ks[..n];
      FlagVolumesComplete(front, median);
      FlagVolumesStep(ks, median);
      var earlier := FlagVolumes(front, median);
      var r := FlagVolumes(ks, median);
      forall i | 0 <= i < |ks| && Outlier(ks[i].volume, median)
        ensures exists k :: 0 <= k < |r| && r[k].index == i
      {
        if i < n {
          assert front[i] == ks[i];
          var k :| 0 <= k < |earlier| && earlier[k].index == i;
          assert r[k] == earlier[k];
        } else {
          assert r[|r| - 1].index == n;
        }
      }
    }
  }

  lemma {:induction false} FlagVolumesIncreasing(ks: seq<Candle>, median: real)
    ensures FlagsIncreasing(FlagVolumes(ks, median))
  {
    if ks != [] {
      var n := |ks| - 1;
      var front := ks[..n];
      FlagVolumesIncreasing(front, median);
      FlagVolumesSound(front, median);
      FlagVolumesStep(ks, median);
      var earlier := FlagVolumes(front, median);
      var r := FlagVolumes(ks, median);
      forall k, l | 0 <= k < l < |r|
        ensures r[k].index < r[l].index
      {
        assert r[k] == earlier[k];
        if l < |earlier| {
          assert r[l] == earlier[l];
        }
      }
    }
  }

  /** A record is flagged exactly when it is an outlier, once, in index
      order, with its own volume and issues. */
  lemma FlagVolumesCorrect(ks: seq<Candle>, median: real)
    ensures var r := FlagVolumes(ks, median);
      (forall k :: 0 <= k < |r| ==>
        r[k].index < |ks| && r[k].volume == ks[r[k].index].volume &&
        r[k].timestamp == ks[r[k].index].timestamp &&
        r[k].errors == VolumeIssues(r[k].volume, median) && Outlier(r[k].volume, median)) &&
      (forall i :: 0 <= i < |ks| && Outlier(ks[i].volume, median) ==>
        exists k :: 0 <= k < |r| && r[k].index == i) &&
      (forall k, l :: 0 <= k < l < |r| ==> r[k].index < r[l].index)
  {
    FlagVolumesSound(ks, median);
    FlagVolumesComplete(ks, median);
    FlagVolumesIncreasing(ks, median);
  }

  /** `_check_volume_validity`: nothing is flagged without a positive
      volume, since there is no median to compare with. */
  function VolumeValidity(ks: seq<Candle>): seq<InvalidVolume>
  {
    match MedianVolume(ks)
    case None => []
    case Some(median) => FlagVolumes(ks, median)
  }

  method CheckVolumeValidity(data: seq<Candle>) returns (invalidVolumes: seq<InvalidVolume>)
    ensures invalidVolumes == VolumeValidity(data)
  {
    invalidVolumes := [];
    if data == [] {
      return;
    }
    var volumes := PositiveVolumes(data);
    if volumes == [] {
      return;
    }
    var medianVolume := SortBy(volumes, VolumeKey)[|volumes| / 2];
    assert MedianVolume(data) == Some(medianVolume);
    for i := 0 to |data|
      invariant invalidVolumes == FlagVolumes(data[..i], medianVolume)
    {
      var front := data[..i + 1];
      assert front[..i] == data[..i] && front[i] == data[i];
      var errors: seq<VolumeIssue> := [];
      if data[i].volume < 0.0 {
        errors := errors + [NegativeVolume];
      }
      if data[i].volume > medianVolume * 100.0 {
        errors := errors + [AnomalousVolume(data[i].volume, medianVolume)];
      }
      assert errors == VolumeIssues(data[i].volume, medianVolume);
      if errors != [] {
        invalidVolumes := invalidVolumes + [InvalidVolume(i, data[i].timestamp, data[i].volume, errors)];
      } else {
        assert invalidVolumes == invalidVolumes + [];
      }
    }
    assert data[..|data|] == data;
  }

  // ---------------------------------------------------------------------
  // The report
  // ---------------------------------------------------------------------

  datatype ValidationError = EmptyData | ValidationException(fault: Fault)

  datatype ValidationReport = ValidationReport(
    isValid: bool,
    totalCount: nat,
    duplicates: seq<Duplicate>,
    gaps: seq<Gap>,
    invalidPrices: seq<InvalidPrice>,
    invalidVolumes: seq<InvalidVolume>,
    errors: seq<ValidationError>)

  /** `validate_data`. When the price check raises, the duplicates and gaps
      found before it stay in the report, the two later lists stay empty
      and an error is appended. */
  function ValidationOf(data: seq<Candle>, interval: string): (r: ValidationReport)
    ensures r.totalCount == |data|
    ensures data == [] ==> r == ValidationReport(false, 0, [], [], [], [], [EmptyData])
    ensures r.isValid <==>
      r.errors == [] && r.duplicates == [] && r.gaps == [] && r.invalidPrices == [] && r.invalidVolumes == []
  {
    var initial := ValidationReport(true, |data|, [], [], [], [], []);
    if data == [] then initial.(isValid := false, errors := [EmptyData])
    else
      var found := initial.(duplicates := Duplicates(data), gaps := TimeGaps(data, interval));
      match PriceValidity(data)
      case Raises(f) => found.(isValid := false, errors := [ValidationException(f)])
      case Ok(prices) =>
        var checked := found.(invalidPrices := prices, invalidVolumes := VolumeValidity(data));
        checked.(isValid := checked.duplicates == [] && checked.gaps == [] &&
                            checked.invalidPrices == [] && checked.invalidVolumes == [])
  }

  /** The report carries an error exactly when the price check raised. */
  lemma ValidationErrorsIff(data: seq<Candle>, interval: string)
    requires data != []
    ensures ValidationOf(data, interval).errors == [] <==> ClosesNonZero(data)
  {
    PriceValidityRaisesIff(data);
  }

  /** A zero previous close makes the price check raise: the report is
      invalid and carries one exception; the duplicates and gaps found
      before stay, and there are no price or volume findings. */
  lemma ValidationRaises(data: seq<Candle>, interval: string)
    requires data != [] && !ClosesNonZero(data)
    ensures ValidationOf(data, interval) == ValidationReport(false, |data|, Duplicates(data),
      TimeGaps(data, interval), [], [], [ValidationException(ZeroDivision)])
  {
    PriceValidityRaisesIff(data);
    assert PriceValidity(data) == Raises(ZeroDivision);
  }

  method ValidateData(data: seq<Candle>, interval: string) returns (result: ValidationReport)
    ensures result == ValidationOf(data, interval)
  {
    result := ValidationReport(true, |data|, [], [], [], [], []);
    if data == [] {
      result := result.(isValid := false, errors := result.errors + [EmptyData]);
      return;
    }
    var duplicates := CheckDuplicates(data);
    result := result.(duplicates := duplicates);
    var gaps := CheckTimeGaps(data, interval);
    result := result.(gaps := gaps);
    var prices := CheckPriceValidity(data);
    ghost var found := ValidationReport(true, |data|, duplicates, gaps, [], [], []);
    assert result == found;
    if prices.Raises? {
      result := result.(isValid := false, errors := result.errors + [ValidationException(prices.fault)]);
      assert result == found.(isValid := false, errors := [ValidationException(prices.fault)]);
      return;
    }
    result := result.(invalidPrices := prices.value);
    var volumes := CheckVolumeValidity(data);
    result := result.(invalidVolumes := volumes);
    ghost var checked := found.(invalidPrices := prices.value, invalidVolumes := volumes);
    assert result == checked;
    if result.duplicates != [] || result.gaps != [] || result.invalidPrices != [] || result.invalidVolumes != [] {
      result := result.(isValid := false);
    }
    assert result == checked.(isValid := checked.duplicates == [] && checked.gaps == [] &&
                                          checked.invalidPrices == [] && checked.invalidVolumes == []);
  }

  // ---------------------------------------------------------------------
  // The three-record sample of the validation scenario
  // ---------------------------------------------------------------------

  /** 2024-01-01 12:00:00 UTC, in seconds. */
  const SampleStart := 1704110400

  const SampleData := [
    Candle(SampleStart, 45000.0, 45500.0, 44500.0, 45200.0, 1000.0),
    Candle(SampleStart + 900, 45200.0, 44000.0, 44500.0, 45300.0, -100.0),
    Candle(SampleStart + 900, 45300.0, 45800.0, 45100.0, 45600.0, 800.0)]

  lemma SampleDuplicates()
    ensures Duplicates(SampleData) == [Duplicate(2, SampleStart + 900, SampleData[2])]
  {
    var ks := SampleData;
    assert ks[..1][..0] == [] && ks[..2][..1] == ks[..1] && ks[..2] == ks[..3][..2];
    assert Stamps(ks[..1]) == {SampleStart};
    assert Stamps(ks[..2]) == {SampleStart, SampleStart + 900};
    assert Duplicates(ks[..1]) == [];
    assert Duplicates(ks[..2]) == [];
  }

  lemma SampleSorted()
    ensures SortBy(SampleData, TimestampKey) == SampleData
  {
    var ks := SampleData;
    assert ks[2..] == [ks[2]] && ks[1..] == [ks[1], ks[2]];
    assert SortBy([ks[2]], TimestampKey) == [ks[2]];
    assert Insert(ks[1], [ks[2]], TimestampKey) == [ks[1], ks[2]];
    assert SortBy(ks[1..], TimestampKey) == [ks[1], ks[2]];
    assert Insert(ks[0], [ks[1], ks[2]], TimestampKey) == ks;
  }

  lemma SampleGaps()
    ensures TimeGaps(SampleData, "15m") == []
  {
    assert IntervalSeconds("15m") == Some(900);
    TimeGapsKnown(SampleData, "15m", 900);
    SampleSorted();
    SampleNoGapAt15m();
  }

  /** With a known interval, the gaps are those of the sorted records. */
  lemma TimeGapsKnown(data: seq<Candle>, interval: string, expected: nat)
    requires |data| >= 2 && IntervalSeconds(interval) == Some(expected)
    ensures TimeGaps(data, interval) == GapsIn(SortBy(data, TimestampKey), expected)
  {
  }

  lemma SampleNoGapAt15m()
    ensures GapsIn(SampleData, 900) == []
  {
    var ks := SampleData;
    GapsInStep(ks, 1, 900);
    GapsInStep(ks, 2, 900);
    assert ks[..3] == ks;
  }

  lemma SamplePrices()
    ensures PriceValidity(SampleData) ==
      Ok([InvalidPrice(1, SampleStart + 900, SampleData[1], [HighBelowBody, HighBelowLow])])
  {
    var ks := SampleData;
    var flagged := [InvalidPrice(1, SampleStart + 900, ks[1], [HighBelowBody, HighBelowLow])];
    assert ks[..0] == [] && ks[..3] == ks;
    assert OhlcIssues(ks[0]) == [];
    assert PriceIssues(ks, 0) == Ok([]);
    PriceValidityStep(ks, 0, [], []);
    assert Abs(45300.0 - 45200.0) / 45200.0 <= 0.5;
    assert OhlcIssues(ks[1]) + [] == [HighBelowBody, HighBelowLow];
    assert PriceIssues(ks, 1) == Ok([HighBelowBody, HighBelowLow]);
    PriceValidityStep(ks, 1, [], [HighBelowBody, HighBelowLow]);
    assert [] + flagged == flagged;
    assert Abs(45600.0 - 45300.0) / 45300.0 <= 0.5;
    assert OhlcIssues(ks[2]) + [] == [];
    assert PriceIssues(ks, 2) == Ok([]);
    PriceValidityStep(ks, 2, flagged, []);
    assert flagged + [] == flagged;
  }

  lemma SampleMedianSorted()
    ensures SortBy([1000.0, 800.0], VolumeKey) == [800.0, 1000.0]
  {
    assert [1000.0, 800.0][1..] == [800.0];
    assert SortBy([800.0], VolumeKey) == [800.0];
  }

  lemma SampleMedian()
    ensures MedianVolume(SampleData) == Some(1000.0)
  {
    var ks := SampleData;
    assert ks[..1][..0] == [] && ks[..2][..1] == ks[..1] && ks[..2] == ks[..3][..2];
    assert PositiveVolumes(ks[..1]) == [1000.0];
    assert PositiveVolumes(ks[..2]) == [1000.0];
    assert PositiveVolumes(ks) == [1000.0, 800.0];
    SampleMedianSorted();
  }

  lemma SampleVolumes()
    ensures VolumeValidity(SampleData) == [InvalidVolume(1, SampleStart + 900, -100.0, [NegativeVolume])]
  {
    var ks := SampleData;
    SampleMedian();
    assert ks[..1][..0] == [] && ks[..2][..1] == ks[..1] && ks[..2] == ks[..3][..2];
    assert VolumeIssues(1000.0, 1000.0) == [];
    assert VolumeIssues(-100.0, 1000.0) == [NegativeVolume];
    assert VolumeIssues(800.0, 1000.0) == [];
    assert FlagVolumes(ks[..1], 1000.0) == [];
    assert FlagVolumes(ks[..2], 1000.0) == [InvalidVolume(1, SampleStart + 900, -100.0, [NegativeVolume])];
  }

  /** The second record's high sits below its body and its low, its volume
      is negative, and the third repeats its timestamp: the data is
      rejected, without any gap at 15 minutes. */
  lemma SampleValidation()
    ensures var r := ValidationOf(SampleData, "15m");
      !r.isValid && r.totalCount == 3 && r.errors == [] &&
      r.duplicates == [Duplicate(2, SampleStart + 900, SampleData[2])] &&
      r.gaps == [] &&
      r.invalidPrices == [InvalidPrice(1, SampleStart + 900, SampleData[1], [HighBelowBody, HighBelowLow])] &&
      r.invalidVolumes == [InvalidVolume(1, SampleStart + 900, -100.0, [NegativeVolume])]
  {
    SampleDuplicates();
    SampleGaps();
    SamplePrices();
    SampleVolumes();
  }
}
