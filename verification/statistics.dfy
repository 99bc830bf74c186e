/** Descriptive statistics of a block-time series and the confidence-
    adjusted range estimate (internal/calculator/calculator.go,
    `calculateStatistics` and `calculateRange`). */
module Statistics {
  import opened Types
  import opened Ordering
  import opened Percentiles

  function SquaredDeviationFrom(m: real): real -> real {
    x => (x - m) * (x - m)
  }

  /** The bookkeeping fields `calculateStatistics` leaves at zero. */
  predicate BookkeepingZero(r: BlockTimeStats) {
    && r.sampleSize == 0 && r.startHeight == 0 && r.endHeight == 0
    && r.startTime == 0.0 && r.endTime == 0.0 && r.outlierCount == 0
    && r.estimatedRange == Range(0.0, 0.0, 0.0) && r.confidenceLevel == 0.0
  }

  /** Min ≤ P25 ≤ Median ≤ P75 ≤ P95 ≤ P99 ≤ Max over an ascending sequence. */
  lemma PercentileChain(sorted: seq<real>)
    requires Sorted(sorted) && |sorted| > 0
    ensures sorted[0] <= Percentile(sorted, 0.25) <= Percentile(sorted, 0.5)
      <= Percentile(sorted, 0.75) <= Percentile(sorted, 0.95)
      <= Percentile(sorted, 0.99) <= sorted[|sorted| - 1]
  {
    PercentileWithinRange(sorted, 0.25);
    PercentileMonotone(sorted, 0.25, 0.5);
    PercentileMonotone(sorted, 0.5, 0.75);
    PercentileMonotone(sorted, 0.75, 0.95);
    PercentileMonotone(sorted, 0.95, 0.99);
    PercentileWithinRange(sorted, 0.99);
  }

  /** The mean lies between the smallest and the largest value. */
  lemma MeanBounds(times: seq<real>, sorted: seq<real>)
    requires |times| > 0 && Sorted(sorted) && multiset(sorted) == multiset(times)
    ensures |sorted| == |times|
    ensures sorted[0] <= Sum(times) / |times| as real <= sorted[|sorted| - 1]
  {
    SortedSize(times, sorted);
    forall i | 0 <= i < |times| ensures sorted[0] <= times[i] <= sorted[|sorted| - 1] {
      SortedBounds(times, sorted, i);
    }
    SumBounds(times, sorted[0], sorted[|sorted| - 1]);
    DivBounds(Sum(times), |times| as real, sorted[0], sorted[|sorted| - 1]);
  }

  lemma DivBounds(total: real, n: real, lo: real, hi: real)
    requires n > 0.0 && n * lo <= total <= n * hi
    ensures lo <= total / n <= hi
  {
  }

  lemma VarianceNonNegative(times: seq<real>, m: real)
    requires |times| > 0
    ensures SumOf(times, SquaredDeviationFrom(m)) / |times| as real >= 0.0
  {
    forall i | 0 <= i < |times| ensures SquaredDeviationFrom(m)(times[i]) >= 0.0 {
      MulNonNegativeSquare(times[i] - m);
    }
    SumOfNonNegative(times, SquaredDeviationFrom(m));
  }

  lemma MulNonNegativeSquare(x: real)
    ensures x * x >= 0.0
  {
    if x < 0.0 {
      MulNonNegative(-x, -x);
    } else {
      MulNonNegative(x, x);
    }
  }

  /** Min, max, mean, population variance and percentiles of `times`, with
      the zero record for an empty series. */
  function CalculateStatistics(times: seq<real>): (r: BlockTimeStats)
    ensures |times| == 0 ==> r == ZeroStats()
    ensures BookkeepingZero(r)
    ensures |times| > 0 ==>
      && r.min <= r.p25 <= r.median <= r.p75 <= r.p95 <= r.p99 <= r.max
      && r.min <= r.mean <= r.max
      && r.variance >= 0.0
      && r.min in times && r.max in times
      && (forall i :: 0 <= i < |times| ==> r.min <= times[i] <= r.max)
  {
    if |times| == 0 then ZeroStats()
    else
      var sorted := Sort(times);
      var n := |times| as real;
      var mean := Sum(times) / n;
      PercentileChain(sorted);
      MeanBounds(times, sorted);
      VarianceNonNegative(times, mean);
      assert sorted[0] in multiset(times) && sorted[|sorted| - 1] in multiset(times);
      forall i | 0 <= i < |times| ensures sorted[0] <= times[i] <= sorted[|sorted| - 1] {
        SortedBounds(times, sorted, i);
      }
      ZeroStats().(
        min := sorted[0],
        max := sorted[|sorted| - 1],
        median := Percentile(sorted, 0.5),
        p25 := Percentile(sorted, 0.25),
        p75 := Percentile(sorted, 0.75),
        p95 := Percentile(sorted, 0.95),
        p99 := Percentile(sorted, 0.99),
        mean := mean,
        variance := SumOf(times, SquaredDeviationFrom(mean)) / n)
  }

  /** The textbook median of an ascending series: its middle value, or the
      mean of the two middle values when the length is even. */
  function MiddleValue(sorted: seq<real>): real
    requires |sorted| > 0
  {
    var n := |sorted|;
    if n % 2 == 1 then sorted[n / 2] else (sorted[n / 2 - 1] + sorted[n / 2]) / 2.0
  }

  /** The summary's median is the textbook median of the sorted series. */
  lemma StatisticsMedian(times: seq<real>)
    requires |times| > 0
    ensures CalculateStatistics(times).median == MiddleValue(Sort(times))
  {
    MedianIsHalfPercentile(times);
    SortedMedian(Sort(times));
  }

  lemma MedianIsHalfPercentile(times: seq<real>)
    requires |times| > 0
    ensures |Sort(times)| > 0
    ensures CalculateStatistics(times).median == Percentile(Sort(times), 0.5)
  {
  }

  lemma SortedMedian(sorted: seq<real>)
    requires |sorted| > 0
    ensures Percentile(sorted, 0.5) == MiddleValue(sorted)
  {
    PercentileMedian(sorted);
  }

  /** The statistics depend only on the multiset of values, not on their
      order: summarising any rearrangement gives the identical record. */
  lemma StatisticsOrderIndependent(a: seq<real>, b: seq<real>)
    requires multiset(a) == multiset(b)
    ensures CalculateStatistics(a) == CalculateStatistics(b)
  {
    SortedSize(a, b);
    if |a| > 0 {
      SortPermutation(a, b);
      SumOfPermutation(a, b, Identity);
      var mean := Sum(a) / |a| as real;
      SumOfPermutation(a, b, SquaredDeviationFrom(mean));
    }
  }

  // ---------------------------------------------------------------------
  // Range estimate

  /** At or above this confidence level the interval is not narrowed. */
  const FullConfidence: real := 0.95

  function Max(a: real, b: real): real { if a >= b then a else b }
  function Min(a: real, b: real): real { if a <= b then a else b }

  datatype Interval = Interval(lower: real, upper: real)

  /** max(P25 − IQR/2, Min) and min(P75 + IQR/2, P95). */
  function BaseInterval(stats: BlockTimeStats): Interval {
    var iqr := stats.p75 - stats.p25;
    Interval(Max(stats.p25 - 0.5 * iqr, stats.min), Min(stats.p75 + 0.5 * iqr, stats.p95))
  }

  /** The base interval, narrowed about its centre for confidence below
      0.95 to the fraction confidence/0.95 of its width. */
  function AdjustedInterval(stats: BlockTimeStats, confidence: real): (iv: Interval)
    ensures var base := BaseInterval(stats);
      && (confidence >= FullConfidence ==> iv == base)
      && (confidence < FullConfidence ==>
            && iv.upper - iv.lower == (base.upper - base.lower) * (confidence / FullConfidence)
            && iv.lower + iv.upper == base.lower + base.upper)
      && (0.0 <= confidence < FullConfidence && base.lower <= base.upper ==>
            base.lower <= iv.lower <= iv.upper <= base.upper)
  {
    var base := BaseInterval(stats);
    if confidence < FullConfidence then
      var factor := confidence / FullConfidence;
      var width := base.upper - base.lower;
      var adjustment := width * (1.0 - factor) / 2.0;
      NarrowingFacts(width, factor);
      Interval(base.lower + adjustment, base.upper - adjustment)
    else base
  }

  lemma NarrowingFacts(width: real, factor: real)
    ensures width - 2.0 * (width * (1.0 - factor) / 2.0) == width * factor
    ensures width >= 0.0 && 0.0 <= factor <= 1.0 ==>
      0.0 <= width * (1.0 - factor) / 2.0 && width * factor >= 0.0
  {
    if width >= 0.0 && 0.0 <= factor <= 1.0 {
      MulNonNegative(width, 1.0 - factor);
      MulNonNegative(width, factor);
    }
  }

  /** The estimated range: lower clamped at zero, typical = median. */
  function CalculateRange(confidence: real, times: seq<real>, stats: BlockTimeStats): (r: Range)
    ensures |times| == 0 ==> r == Range(0.0, 0.0, 0.0)
    ensures |times| > 0 ==>
      && r.typical == stats.median
      && r.lower >= 0.0
      && r.lower == Max(AdjustedInterval(stats, confidence).lower, 0.0)
      && r.upper == AdjustedInterval(stats, confidence).upper
  {
    if |times| == 0 then Range(0.0, 0.0, 0.0)
    else
      var iv := AdjustedInterval(stats, confidence);
      Range(Max(iv.lower, 0.0), iv.upper, stats.median)
  }

  /** For non-negative block times, the base interval brackets the median
      and sits inside [0, P95]. */
  lemma BaseIntervalOrdered(times: seq<real>)
    requires |times| > 0 && forall i :: 0 <= i < |times| ==> times[i] >= 0.0
    ensures var stats := CalculateStatistics(times);
      var base := BaseInterval(stats);
      && 0.0 <= stats.min
      && base.lower <= stats.median <= base.upper <= stats.p95
  {
  }

  /** At full confidence and for non-negative data:
      Lower ≤ Typical ≤ Upper ≤ P95. */
  lemma RangeOrdered(confidence: real, times: seq<real>)
    requires |times| > 0 && forall i :: 0 <= i < |times| ==> times[i] >= 0.0
    requires confidence >= FullConfidence
    ensures var stats := CalculateStatistics(times);
      var r := CalculateRange(confidence, times, stats);
      r.lower <= r.typical <= r.upper <= stats.p95
  {
    BaseIntervalOrdered(times);
  }

  /** Below full confidence the narrowed range of non-negative data still
      has 0 ≤ Lower ≤ Upper ≤ P95, though the median may leave it. */
  lemma NarrowedRangeOrdered(confidence: real, times: seq<real>)
    requires |times| > 0 && forall i :: 0 <= i < |times| ==> times[i] >= 0.0
    requires 0.0 <= confidence < FullConfidence
    ensures var stats := CalculateStatistics(times);
      var r := CalculateRange(confidence, times, stats);
      0.0 <= r.lower <= r.upper <= stats.p95
  {
    BaseIntervalOrdered(times);
  }
}
