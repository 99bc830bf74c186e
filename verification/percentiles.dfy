/** Percentiles by linear interpolation between order statistics at the
    continuous rank p·(n−1) (internal/calculator/calculator.go, `percentile`). */
module Percentiles {
  import opened Ordering

  /** The least integer not below `x` (`math.Ceil`). */
  function Ceil(x: real): (c: int)
    ensures x <= c as real < x + 1.0
  {
    if x.Floor as real == x then x.Floor else x.Floor + 1
  }

  /** The continuous rank p·(n−1) of the p-th percentile among n values. */
  function Rank(n: nat, p: real): real {
    p * (n - 1) as real
  }

  /** For 0 < p < 1 the two order statistics around the rank exist. */
  lemma RankBounds(n: nat, p: real)
    requires n >= 1 && 0.0 < p < 1.0
    ensures 0 <= Rank(n, p).Floor <= Ceil(Rank(n, p)) <= n - 1
    ensures Ceil(Rank(n, p)) <= Rank(n, p).Floor + 1
  {
    var m := (n - 1) as real;
    assert 0.0 <= p * m by {
      assert m >= 0.0;
    }
    assert p * m <= m by {
      assert (1.0 - p) * m >= 0.0;
    }
  }

  /** `a` moved the fraction `w` of the way towards `b`. */
  function Lerp(a: real, b: real, w: real): real {
    a * (1.0 - w) + b * w
  }

  lemma MulNonNegative(x: real, y: real)
    requires x >= 0.0 && y >= 0.0
    ensures x * y >= 0.0
  {
  }

  lemma LerpBetween(a: real, b: real, w: real)
    requires a <= b && 0.0 <= w <= 1.0
    ensures a <= Lerp(a, b, w) <= b
  {
    assert Lerp(a, b, w) == a + w * (b - a);
    MulNonNegative(w, b - a);
    MulNonNegative(1.0 - w, b - a);
    assert (1.0 - w) * (b - a) == (b - a) - w * (b - a);
  }

  lemma LerpMonotone(a: real, b: real, w1: real, w2: real)
    requires a <= b && w1 <= w2
    ensures Lerp(a, b, w1) <= Lerp(a, b, w2)
  {
    assert Lerp(a, b, w2) - Lerp(a, b, w1) == (w2 - w1) * (b - a);
  }

  /** The p-th percentile of an ascending sequence. */
  function Percentile(sorted: seq<real>, p: real): real {
    if |sorted| == 0 then 0.0
    else if p <= 0.0 then sorted[0]
    else if p >= 1.0 then sorted[|sorted| - 1]
    else
      var index := Rank(|sorted|, p);
      RankBounds(|sorted|, p);
      var lower := index.Floor;
      var upper := Ceil(index);
      if lower == upper then sorted[lower]
      else Lerp(sorted[lower], sorted[upper], index - lower as real)
  }

  /** Strictly inside (0, 1) the percentile lies between the order
      statistics just below and just above its rank, and equals the order
      statistic when the rank is a whole number. */
  lemma PercentileInterpolates(s: seq<real>, p: real)
    requires Sorted(s) && |s| > 0 && 0.0 < p < 1.0
    ensures 0 <= Rank(|s|, p).Floor <= Ceil(Rank(|s|, p)) <= |s| - 1
    ensures s[Rank(|s|, p).Floor] <= Percentile(s, p) <= s[Ceil(Rank(|s|, p))]
    ensures Rank(|s|, p).Floor as real == Rank(|s|, p) ==> Percentile(s, p) == s[Rank(|s|, p).Floor]
  {
    RankBounds(|s|, p);
    var index := Rank(|s|, p);
    var lower := index.Floor;
    var upper := Ceil(index);
    if lower != upper {
      LerpBetween(s[lower], s[upper], index - lower as real);
    }
  }

  /** Any percentile of a non-empty ascending sequence lies between its
      minimum and maximum; p ≤ 0 gives the minimum and p ≥ 1 the maximum. */
  lemma PercentileWithinRange(s: seq<real>, p: real)
    requires Sorted(s) && |s| > 0
    ensures s[0] <= Percentile(s, p) <= s[|s| - 1]
    ensures p <= 0.0 ==> Percentile(s, p) == s[0]
    ensures p >= 1.0 ==> Percentile(s, p) == s[|s| - 1]
  {
    if 0.0 < p < 1.0 {
      PercentileInterpolates(s, p);
    }
  }

  /** The 50th percentile is the textbook median. */
  lemma PercentileMedian(s: seq<real>)
    requires |s| > 0
    ensures |s| % 2 == 1 ==> Percentile(s, 0.5) == s[|s| / 2]
    ensures |s| % 2 == 0 ==> Percentile(s, 0.5) == (s[|s| / 2 - 1] + s[|s| / 2]) / 2.0
  {
    var n := |s|;
    var k := n / 2;
    var index := Rank(n, 0.5);
    if n % 2 == 1 {
      assert index == k as real;
      assert index.Floor == k;
    } else {
      assert index == k as real - 0.5;
      assert index.Floor == k - 1;
      assert Ceil(index) == k;
    }
  }

  /** Over an ascending sequence the percentile is monotone in p. */
  lemma PercentileMonotone(s: seq<real>, p: real, q: real)
    requires Sorted(s) && p <= q
    ensures Percentile(s, p) <= Percentile(s, q)
  {
    if |s| == 0 {
    } else if p <= 0.0 || q >= 1.0 {
      PercentileWithinRange(s, p);
      PercentileWithinRange(s, q);
    } else {
      var n := |s|;
      var ip, iq := Rank(n, p), Rank(n, q);
      assert ip <= iq by {
        assert iq - ip == (q - p) * (n - 1) as real;
      }
      PercentileInterpolates(s, p);
      PercentileInterpolates(s, q);
      var lp, lq := ip.Floor, iq.Floor;
      var up, uq := Ceil(ip), Ceil(iq);
      if lp < lq {
        assert up <= lq;
        assert s[up] <= s[lq];
      } else if lp == up {
      } else if lq == uq {
        assert false;
      } else {
        assert up == uq;
        LerpMonotone(s[lp], s[up], ip - lp as real, iq - lq as real);
      }
    }
  }
}
