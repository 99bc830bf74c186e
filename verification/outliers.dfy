/** Outlier removal for a series of block times
    (internal/calculator/calculator.go, `removeOutliers` and
    `removeOutliersIQR`): the median-absolute-deviation test with its IQR
    fallback, the IQR fence test, and symmetric trimming. */
module Outliers {
  import opened Types
  import opened Ordering
  import opened Percentiles

  /** Values whose modified z-score exceeds this are outliers. */
  const ZScoreThreshold: real := 3.5
  /** Scales a MAD to the standard deviation of a normal distribution. */
  const ZScoreScale: real := 0.6745

  /** What survives cleaning, and how many drop events were counted. */
  datatype Cleaned = Cleaned(values: seq<real>, outliers: nat)

  function Abs(x: real): real {
    if x < 0.0 then -x else x
  }

  function Median(sorted: seq<real>): real {
    Percentile(sorted, 0.5)
  }

  /** |v − m| for every v of `s`, in the same order. */
  function Deviations(s: seq<real>, m: real): seq<real> {
    seq(|s|, i requires 0 <= i < |s| => Abs(s[i] - m))
  }

  /** Median absolute deviation of an ascending sequence. */
  function Mad(sorted: seq<real>): real {
    Median(Sort(Deviations(sorted, Median(sorted))))
  }

  // ---------------------------------------------------------------------
  // IQR fence

  /** The fence [Q1 − t·IQR, Q3 + t·IQR] of an ascending sequence. */
  function FenceLow(threshold: real, sorted: seq<real>): real {
    var q1 := Percentile(sorted, 0.25);
    var q3 := Percentile(sorted, 0.75);
    q1 - threshold * (q3 - q1)
  }

  function FenceHigh(threshold: real, sorted: seq<real>): real {
    var q1 := Percentile(sorted, 0.25);
    var q3 := Percentile(sorted, 0.75);
    q3 + threshold * (q3 - q1)
  }

  function InFence(lo: real, hi: real): real -> bool {
    v => lo <= v <= hi
  }

  /** Keeps exactly the values inside the IQR fence, each with its full
      multiplicity, and counts every rejected value once. */
  function RemoveOutliersIQR(cfg: CalculatorConfig, sorted: seq<real>): (r: Cleaned)
    ensures |r.values| + r.outliers == |sorted|
    ensures multiset(r.values) <= multiset(sorted)
    ensures forall v :: (multiset(r.values)[v] ==
      if FenceLow(cfg.outlierThreshold, sorted) <= v <= FenceHigh(cfg.outlierThreshold, sorted)
      then multiset(sorted)[v] else 0)
    ensures Sorted(sorted) ==> Sorted(r.values)
  {
    var keep := InFence(FenceLow(cfg.outlierThreshold, sorted), FenceHigh(cfg.outlierThreshold, sorted));
    FilterSortedIfSorted(sorted, keep);
    Cleaned(Filter(sorted, keep), CountRejected(sorted, keep))
  }

  lemma FilterSortedIfSorted(s: seq<real>, keep: real -> bool)
    ensures Sorted(s) ==> Sorted(Filter(s, keep))
  {
    if Sorted(s) {
      FilterSorted(s, keep);
    }
  }

  // ---------------------------------------------------------------------
  // MAD test

  function ModifiedZScore(v: real, m: real, mad: real): real
    requires mad != 0.0
  {
    ZScoreScale * (v - m) / mad
  }

  /** Whether `v` passes the modified z-score test. */
  function WithinZ(m: real, mad: real): real -> bool {
    v => mad != 0.0 && Abs(ModifiedZScore(v, m, mad)) <= ZScoreThreshold
  }

  /** The z-score filter of the MAD path, applied to the input in its
      original order. */
  function MadFilter(times: seq<real>, m: real, mad: real): (r: Cleaned)
    requires mad != 0.0
    ensures |r.values| + r.outliers == |times|
    ensures multiset(r.values) <= multiset(times)
    ensures forall v :: (multiset(r.values)[v] ==
      if Abs(ModifiedZScore(v, m, mad)) <= ZScoreThreshold then multiset(times)[v] else 0)
  {
    Cleaned(Filter(times, WithinZ(m, mad)), CountRejected(times, WithinZ(m, mad)))
  }

  // ---------------------------------------------------------------------
  // Trimming

  /** `int(float64(n) * t)` for t > 0. */
  function TrimCount(n: nat, t: real): nat
    requires t > 0.0
  {
    assert n as real * t >= 0.0 by {
      MulNonNegative(n as real, t);
    }
    (n as real * t).Floor
  }

  /** With t < 0.5 the two cut ends never overlap. */
  lemma TrimCountBound(n: nat, t: real)
    requires 0.0 < t < 0.5
    ensures 2 * TrimCount(n, t) <= n
    ensures n > 0 ==> 2 * TrimCount(n, t) < n
  {
    var k := TrimCount(n, t);
    assert k as real <= n as real * t;
    MulNonNegative(n as real, 0.5 - t);
    if n > 0 {
      assert n as real * t < n as real * 0.5 by {
        assert n as real * 0.5 - n as real * t == n as real * (0.5 - t);
        assert n as real * (0.5 - t) > 0.0;
      }
    }
  }

  /** Whether trimming applies to a cleaned set of `n` values. */
  predicate TrimApplies(n: nat, t: real) {
    t > 0.0 && n > 10 && TrimCount(n, t) > 0
  }

  /** The middle of a sorted sequence with k values cut from each end. */
  lemma MiddleSlice(s: seq<real>, k: nat)
    requires Sorted(s) && 2 * k < |s|
    ensures Sorted(s[k..|s| - k])
    ensures multiset(s[k..|s| - k]) <= multiset(s)
    ensures s == s[..k] + s[k..|s| - k] + s[|s| - k..]
  {
    SliceSubMultiset(s, k, |s| - k);
    SliceSorted(s, k, |s| - k);
    SliceSplit(s, k, |s| - k);
  }

  /** Drops the k smallest and the k largest values, k = ⌊n·t⌋, when there
      are more than ten values and t > 0, and counts 2k more outliers. */
  function Trim(c: Cleaned, t: real): (r: Cleaned)
    requires t < 0.5
    ensures |r.values| + r.outliers == |c.values| + c.outliers
    ensures multiset(r.values) <= multiset(c.values)
    ensures !TrimApplies(|c.values|, t) ==> r == c
    ensures TrimApplies(|c.values|, t) ==>
      var k := TrimCount(|c.values|, t);
      var s := Sort(c.values);
      && r.outliers == c.outliers + 2 * k
      && |r.values| == |c.values| - 2 * k > 0
      && Sorted(r.values)
      && s == s[..k] + r.values + s[|s| - k..]
  {
    if TrimApplies(|c.values|, t) then
      var k := TrimCount(|c.values|, t);
      TrimCountBound(|c.values|, t);
      var s := Sort(c.values);
      SortedSize(s, c.values);
      MiddleSlice(s, k);
      Cleaned(s[k..|s| - k], c.outliers + 2 * k)
    else c
  }

  // ---------------------------------------------------------------------
  // removeOutliers

  /** Outlier removal as configured. `cfg.trimPercent < 0.5` is what the
      calculator's constructor guarantees; a larger value would make the
      trimming slice invalid. */
  function RemoveOutliers(cfg: CalculatorConfig, times: seq<real>): (r: Cleaned)
    requires cfg.trimPercent < 0.5
    ensures |times| <= 3 ==> r == Cleaned(times, 0)
    ensures |r.values| + r.outliers == |times|
    ensures multiset(r.values) <= multiset(times)
  {
    if |times| <= 3 then Cleaned(times, 0)
    else
      var sorted := Sort(times);
      if !cfg.useMedianAbsolute then RemoveOutliersIQR(cfg, sorted)
      else
        var m := Median(sorted);
        var mad := Mad(sorted);
        if mad == 0.0 then RemoveOutliersIQR(cfg, sorted)
        else Trim(MadFilter(times, m, mad), cfg.trimPercent)
  }

  /** Without the MAD test, or when the MAD is zero, cleaning is the IQR
      fence over the sorted input: an ascending result, never trimmed. */
  lemma IqrPath(cfg: CalculatorConfig, times: seq<real>)
    requires cfg.trimPercent < 0.5 && |times| > 3
    requires !cfg.useMedianAbsolute || Mad(Sort(times)) == 0.0
    ensures RemoveOutliers(cfg, times) == RemoveOutliersIQR(cfg, Sort(times))
    ensures Sorted(RemoveOutliers(cfg, times).values)
  {
  }

  /** On the MAD path with a non-zero MAD, before any trimming, a value is
      kept exactly when its modified z-score is at most 3.5, and the kept
      values keep their input order. */
  lemma MadPath(cfg: CalculatorConfig, times: seq<real>)
    requires cfg.trimPercent < 0.5 && |times| > 3 && cfg.useMedianAbsolute
    ensures var m, mad := Median(Sort(times)), Mad(Sort(times));
      mad != 0.0 ==>
      var pre := MadFilter(times, m, mad);
      && RemoveOutliers(cfg, times) == Trim(pre, cfg.trimPercent)
      && pre.values == Filter(times, WithinZ(m, mad))
      && (forall a, b :: a + b == times ==>
            pre.values == Filter(a, WithinZ(m, mad)) + Filter(b, WithinZ(m, mad)))
  {
    var m, mad := Median(Sort(times)), Mad(Sort(times));
    forall a, b | a + b == times && mad != 0.0
      ensures Filter(times, WithinZ(m, mad)) == Filter(a, WithinZ(m, mad)) + Filter(b, WithinZ(m, mad))
    {
      FilterConcat(a, b, WithinZ(m, mad));
    }
  }

  predicate Constant(s: seq<real>, c: real) {
    forall i :: 0 <= i < |s| ==> s[i] == c
  }

  /** Every percentile of a constant series is that constant. */
  lemma ConstantPercentile(s: seq<real>, c: real, p: real)
    requires |s| > 0 && Constant(s, c)
    ensures Sorted(s) && Percentile(s, p) == c
  {
    PercentileWithinRange(s, p);
  }

  lemma ConstantMad(s: seq<real>, c: real)
    requires |s| > 0 && Constant(s, c)
    ensures Mad(s) == 0.0
  {
    ConstantPercentile(s, c, 0.5);
    var devs := Deviations(s, c);
    assert Constant(devs, 0.0);
    SortedUnique(Sort(devs), devs);
    ConstantPercentile(devs, 0.0, 0.5);
  }

  lemma ConstantFence(threshold: real, s: seq<real>, c: real)
    requires |s| > 0 && Constant(s, c)
    ensures FenceLow(threshold, s) == c == FenceHigh(threshold, s)
  {
    ConstantPercentile(s, c, 0.25);
    ConstantPercentile(s, c, 0.75);
  }

  /** A constant series loses nothing: its MAD and IQR are both zero. */
  lemma ConstantSeriesKept(cfg: CalculatorConfig, times: seq<real>, c: real)
    requires cfg.trimPercent < 0.5
    requires Constant(times, c)
    ensures RemoveOutliers(cfg, times) == Cleaned(times, 0)
  {
    if |times| > 3 {
      ConstantPercentile(times, c, 0.5);
      SortedUnique(Sort(times), times);
      ConstantMad(times, c);
      ConstantFence(cfg.outlierThreshold, times, c);
      AllKept(times, InFence(c, c));
    }
  }

  lemma {:induction false} AllKept(s: seq<real>, keep: real -> bool)
    requires forall i :: 0 <= i < |s| ==> keep(s[i])
    ensures Filter(s, keep) == s
    ensures CountRejected(s, keep) == 0
  {
    if |s| > 0 {
      AllKept(s[1..], keep);
    }
  }
}
