/** Sequences of reals: sortedness, the sort the statistics rely on
    (`sort.Float64s`, specified only as "a sorted permutation"), sums and
    order-preserving filters. */
module Ordering {

  predicate Sorted(s: seq<real>) {
    forall i, j :: 0 <= i < j < |s| ==> s[i] <= s[j]
  }

  /** `a` is at most every element of `t`. */
  predicate LowerBound(a: real, t: seq<real>) {
    forall i :: 0 <= i < |t| ==> a <= t[i]
  }

  lemma SortedCons(a: real, t: seq<real>)
    requires Sorted(t) && LowerBound(a, t)
    ensures Sorted([a] + t)
  {
    var s := [a] + t;
    forall i, j | 0 <= i < j < |s| ensures s[i] <= s[j] {
      if i > 0 {
        assert s[i] == t[i - 1] && s[j] == t[j - 1];
      } else {
        assert s[j] == t[j - 1];
      }
    }
  }

  /** Anything below every element of `s` and below `x` is below every
      element of a sequence holding the elements of `s` and `x`. */
  lemma LowerBoundOfInsert(a: real, x: real, s: seq<real>, r: seq<real>)
    requires LowerBound(a, s) && a <= x
    requires multiset(r) == multiset(s) + multiset{x}
    ensures LowerBound(a, r)
  {
    forall i | 0 <= i < |r| ensures a <= r[i] {
      assert r[i] in multiset(r);
      if r[i] != x {
        assert r[i] in multiset(s);
        var k :| 0 <= k < |s| && s[k] == r[i];
      }
    }
  }

  /** Inserts `x` into a sorted sequence. */
  function Insert(x: real, s: seq<real>): (r: seq<real>)
    requires Sorted(s)
    ensures Sorted(r)
    ensures multiset(r) == multiset(s) + multiset{x}
  {
    if |s| == 0 then [x]
    else if x <= s[0] then
      SortedCons(x, s);
      [x] + s
    else
      var rest := Insert(x, s[1..]);
      assert s == [s[0]] + s[1..];
      LowerBoundOfInsert(s[0], x, s[1..], rest);
      SortedCons(s[0], rest);
      [s[0]] + rest
  }

  /** A sorted permutation of `s`. */
  function Sort(s: seq<real>): (r: seq<real>)
    ensures Sorted(r)
    ensures multiset(r) == multiset(s)
  {
    if |s| == 0 then []
    else
      assert s == [s[0]] + s[1..];
      Insert(s[0], Sort(s[1..]))
  }

  lemma SortedSize(a: seq<real>, b: seq<real>)
    requires multiset(a) == multiset(b)
    ensures |a| == |b|
  {
    assert |multiset(a)| == |a| && |multiset(b)| == |b|;
  }

  /** The first element of a sorted sequence is its least. */
  lemma SortedFirstIsLeast(a: seq<real>, x: real)
    requires Sorted(a) && x in multiset(a)
    ensures a[0] <= x
  {
    var i :| 0 <= i < |a| && a[i] == x;
  }

  lemma SortedTail(a: seq<real>)
    requires Sorted(a) && |a| > 0
    ensures Sorted(a[1..])
    ensures multiset(a[1..]) == multiset(a) - multiset{a[0]}
  {
    assert a == [a[0]] + a[1..];
  }

  /** Two sorted arrangements of one multiset start with the same value. */
  lemma SortedHeadsEqual(a: seq<real>, b: seq<real>)
    requires Sorted(a) && Sorted(b) && multiset(a) == multiset(b)
    requires |a| > 0 && |b| > 0
    ensures a[0] == b[0]
  {
    assert b[0] in multiset(a) && a[0] in multiset(b);
    SortedFirstIsLeast(a, b[0]);
    SortedFirstIsLeast(b, a[0]);
  }

  lemma ConsEqual(a: seq<real>, b: seq<real>)
    requires |a| == |b| > 0 && a[0] == b[0] && a[1..] == b[1..]
    ensures a == b
  {
    assert a == [a[0]] + a[1..] && b == [b[0]] + b[1..];
  }

  /** A sorted arrangement of a multiset is unique. */
  lemma {:induction false} SortedUnique(a: seq<real>, b: seq<real>)
    requires Sorted(a) && Sorted(b)
    requires multiset(a) == multiset(b)
    ensures a == b
  {
    SortedSize(a, b);
    if |a| > 0 {
      SortedHeadsEqual(a, b);
      SortedTail(a);
      SortedTail(b);
      SortedUnique(a[1..], b[1..]);
      ConsEqual(a, b);
    }
  }

  /** Sorting depends only on the multiset of the input. */
  lemma SortPermutation(a: seq<real>, b: seq<real>)
    requires multiset(a) == multiset(b)
    ensures Sort(a) == Sort(b)
  {
    SortedUnique(Sort(a), Sort(b));
  }

  /** Every element of a sequence lies between the first and the last
      element of its sorted arrangement. */
  lemma SortedBounds(s: seq<real>, sorted: seq<real>, i: int)
    requires Sorted(sorted) && multiset(sorted) == multiset(s)
    requires 0 <= i < |s|
    ensures |sorted| == |s|
    ensures sorted[0] <= s[i] <= sorted[|sorted| - 1]
  {
    SortedSize(s, sorted);
    assert s[i] in multiset(sorted);
    var j :| 0 <= j < |sorted| && sorted[j] == s[i];
  }

  // ---------------------------------------------------------------------
  // Sums

  /** Σ f(v) over `s`. Over the reals the order of accumulation does not
      change the sum (see `SumOfPermutation`). */
  function SumOf(s: seq<real>, f: real -> real): real {
    if |s| == 0 then 0.0 else f(s[0]) + SumOf(s[1..], f)
  }

  function Identity(x: real): real { x }

  function Sum(s: seq<real>): real { SumOf(s, Identity) }

  lemma {:induction false} SumOfConcat(a: seq<real>, b: seq<real>, f: real -> real)
    ensures SumOf(a + b, f) == SumOf(a, f) + SumOf(b, f)
  {
    if |a| > 0 {
      assert (a + b)[1..] == a[1..] + b;
      SumOfConcat(a[1..], b, f);
    } else {
      assert a + b == b;
    }
  }

  /** Extending a prefix by one element adds that element to the sum. */
  lemma SumOfLongerPrefix(s: seq<real>, n: nat)
    requires 0 < n <= |s|
    ensures Sum(s[..n]) == Sum(s[..n - 1]) + s[n - 1]
  {
    assert s[..n] == s[..n - 1] + [s[n - 1]];
    SumOfConcat(s[..n - 1], [s[n - 1]], Identity);
    assert SumOf([s[n - 1]], Identity) == s[n - 1] + SumOf([], Identity);
  }

  /** A sum does not depend on the order of its terms. */
  lemma {:induction false} SumOfPermutation(a: seq<real>, b: seq<real>, f: real -> real)
    requires multiset(a) == multiset(b)
    ensures SumOf(a, f) == SumOf(b, f)
    decreases |a|
  {
    SortedSize(a, b);
    if |a| > 0 {
      var x := a[0];
      assert x in multiset(b);
      var j :| 0 <= j < |b| && b[j] == x;
      var rest := b[..j] + b[j + 1..];
      assert b == b[..j] + [x] + b[j + 1..];
      assert a == [x] + a[1..];
      assert multiset(rest) == multiset(b) - multiset{x};
      assert multiset(a[1..]) == multiset(a) - multiset{x};
      SumOfPermutation(a[1..], rest, f);
      SumOfConcat(b[..j], b[j + 1..], f);
      SumOfConcat(b[..j] + [x], b[j + 1..], f);
      SumOfConcat(b[..j], [x], f);
    }
  }

  /** If every term lies in [lo, hi] then the sum lies in [n·lo, n·hi]. */
  lemma {:induction false} SumBounds(s: seq<real>, lo: real, hi: real)
    requires forall i :: 0 <= i < |s| ==> lo <= s[i] <= hi
    ensures |s| as real * lo <= Sum(s) <= |s| as real * hi
  {
    if |s| > 0 {
      SumBounds(s[1..], lo, hi);
      assert Sum(s) == s[0] + Sum(s[1..]);
    }
  }

  lemma {:induction false} SumOfNonNegative(s: seq<real>, f: real -> real)
    requires forall i :: 0 <= i < |s| ==> f(s[i]) >= 0.0
    ensures SumOf(s, f) >= 0.0
  {
    if |s| > 0 {
      SumOfNonNegative(s[1..], f);
    }
  }

  // ---------------------------------------------------------------------
  // Filters

  /** The elements of `s` that satisfy `keep`, in their original order. */
  function Filter(s: seq<real>, keep: real -> bool): (r: seq<real>)
    ensures |r| <= |s|
    ensures forall x :: x in r <==> x in s && keep(x)
    ensures forall x :: multiset(r)[x] == if keep(x) then multiset(s)[x] else 0
    ensures multiset(r) <= multiset(s)
  {
    if |s| == 0 then []
    else
      assert s == [s[0]] + s[1..];
      (if keep(s[0]) then [s[0]] else []) + Filter(s[1..], keep)
  }

  /** How many elements of `s` fail `keep`. */
  function CountRejected(s: seq<real>, keep: real -> bool): (n: nat)
    ensures |Filter(s, keep)| + n == |s|
  {
    if |s| == 0 then 0
    else (if keep(s[0]) then 0 else 1) + CountRejected(s[1..], keep)
  }

  /** A proof device, not a second model of filtering: the same recursion
      as `Filter` but without its quantified contract. Proving the
      concatenation law directly on `Filter` makes the solver instantiate
      those quantifiers at every unfolding, so the law is proved on `Kept`
      and carried over by `FilterIsKept`. */
  function Kept(s: seq<real>, keep: real -> bool): seq<real> {
    if |s| == 0 then [] else (if keep(s[0]) then [s[0]] else []) + Kept(s[1..], keep)
  }

  lemma {:induction false} FilterIsKept(s: seq<real>, keep: real -> bool)
    ensures Filter(s, keep) == Kept(s, keep)
  {
    if |s| > 0 {
      FilterIsKept(s[1..], keep);
    }
  }

  lemma {:induction false} KeptConcat(a: seq<real>, b: seq<real>, keep: real -> bool)
    ensures Kept(a + b, keep) == Kept(a, keep) + Kept(b, keep)
  {
    if |a| == 0 {
      assert a + b == b;
    } else {
      var head := if keep(a[0]) then [a[0]] else [];
      assert (a + b)[0] == a[0] && (a + b)[1..] == a[1..] + b;
      assert Kept(a + b, keep) == head + Kept(a[1..] + b, keep);
      KeptConcat(a[1..], b, keep);
      assert head + (Kept(a[1..], keep) + Kept(b, keep)) == (head + Kept(a[1..], keep)) + Kept(b, keep);
    }
  }

  /** Filtering distributes over concatenation: it keeps the original order. */
  lemma FilterConcat(a: seq<real>, b: seq<real>, keep: real -> bool)
    ensures Filter(a + b, keep) == Filter(a, keep) + Filter(b, keep)
  {
    FilterIsKept(a + b, keep);
    FilterIsKept(a, keep);
    FilterIsKept(b, keep);
    KeptConcat(a, b, keep);
  }

  /** A filter of a sorted sequence is sorted. */
  lemma {:induction false} FilterSorted(s: seq<real>, keep: real -> bool)
    requires Sorted(s)
    ensures Sorted(Filter(s, keep))
  {
    if |s| > 0 {
      FilterSorted(s[1..], keep);
      var rest := Filter(s[1..], keep);
      assert Sorted(s[1..]);
      forall i | 0 <= i < |rest| ensures s[0] <= rest[i] {
        assert rest[i] in s[1..];
      }
      if keep(s[0]) {
        SortedCons(s[0], rest);
      }
      assert Filter(s, keep) == (if keep(s[0]) then [s[0]] else []) + rest;
    }
  }

  /** Every slice of a sequence is a sub-multiset of it. */
  lemma SliceSubMultiset(s: seq<real>, i: int, j: int)
    requires 0 <= i <= j <= |s|
    ensures multiset(s[i..j]) <= multiset(s)
  {
    assert s == s[..i] + s[i..j] + s[j..];
  }

  lemma SliceSplit(s: seq<real>, i: int, j: int)
    requires 0 <= i <= j <= |s|
    ensures s == s[..i] + s[i..j] + s[j..]
  {
  }

  /** A slice of a sorted sequence is sorted. */
  lemma SliceSorted(s: seq<real>, i: int, j: int)
    requires Sorted(s) && 0 <= i <= j <= |s|
    ensures Sorted(s[i..j])
  {
    var m := s[i..j];
    forall a, b | 0 <= a < b < |m| ensures m[a] <= m[b] {
      assert m[a] == s[i + a] && m[b] == s[i + b];
    }
  }
}
