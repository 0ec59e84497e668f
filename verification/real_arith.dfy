/**
 * Real-valued arithmetic used by the flocking rules: running sums, the
 * arithmetic mean with its bounds, and the floor-based remainder that
 * Python's `%` computes on floats.
 */
module RealArith {

  /** Sum of a sequence, accumulated left to right as a `for` loop does. */
  function Sum(s: seq<real>): real
  {
    if s == [] then 0.0 else Sum(s[..|s| - 1]) + s[|s| - 1]
  }

  /** The smallest element of a non-empty sequence. */
  function MinOf(s: seq<real>): (m: real)
    requires |s| > 0
    ensures m in s
    ensures forall k :: 0 <= k < |s| ==> m <= s[k]
  {
    if |s| == 1 then s[0]
    else
      var m' := MinOf(s[..|s| - 1]);
      if s[|s| - 1] < m' then s[|s| - 1] else m'
  }

  /** The largest element of a non-empty sequence. */
  function MaxOf(s: seq<real>): (m: real)
    requires |s| > 0
    ensures m in s
    ensures forall k :: 0 <= k < |s| ==> s[k] <= m
  {
    if |s| == 1 then s[0]
    else
      var m' := MaxOf(s[..|s| - 1]);
      if m' < s[|s| - 1] then s[|s| - 1] else m'
  }

  /** Arithmetic mean: the sum divided by the number of elements. */
  function Mean(s: seq<real>): real
    requires |s| > 0
  {
    Sum(s) / |s| as real
  }

  /** Bounding every element bounds the sum by the count times the bound. */
  lemma {:induction false} SumBounds(s: seq<real>, lo: real, hi: real)
    requires forall k :: 0 <= k < |s| ==> lo <= s[k] <= hi
    ensures |s| as real * lo <= Sum(s) <= |s| as real * hi
  {
    if s != [] {
      var init := s[..|s| - 1];
      SumBounds(init, lo, hi);
      assert |s| as real * lo == |init| as real * lo + lo;
      assert |s| as real * hi == |init| as real * hi + hi;
    }
  }

  /** Bounds on every element carry over to the mean. */
  lemma MeanWithin(s: seq<real>, lo: real, hi: real)
    requires |s| > 0
    requires forall k :: 0 <= k < |s| ==> lo <= s[k] <= hi
    ensures lo <= Mean(s) <= hi
  {
    SumBounds(s, lo, hi);
    QuotientBounds(Sum(s), |s| as real, lo, hi);
  }

  /** The mean of a non-empty sequence lies between its minimum and maximum. */
  lemma MeanBetween(s: seq<real>)
    requires |s| > 0
    ensures MinOf(s) <= Mean(s) <= MaxOf(s)
  {
    MeanWithin(s, MinOf(s), MaxOf(s));
  }

  /** Strict bounds on every element carry over to the mean. */
  lemma MeanStrictlyWithin(s: seq<real>, lo: real, hi: real)
    requires |s| > 0
    requires forall k :: 0 <= k < |s| ==> lo < s[k] < hi
    ensures lo < Mean(s) < hi
  {
    MeanBetween(s);
  }

  /** Dividing `n * lo <= total <= n * hi` by a positive `n`. */
  lemma QuotientBounds(total: real, n: real, lo: real, hi: real)
    requires n > 0.0 && n * lo <= total <= n * hi
    ensures lo <= total / n <= hi
  {
  }

  /**
   * Python's float remainder `a % 360`: the divisor's sign is kept, so the
   * result is `a` minus the largest multiple of 360 not above it.
   */
  function Mod360(a: real): (r: real)
    ensures 0.0 <= r < 360.0
  {
    a - 360.0 * (a / 360.0).Floor as real
  }

  /** Within the k-th window of width 360 the remainder subtracts exactly 360k. */
  lemma Mod360Shift(a: real, k: int)
    requires 360.0 * k as real <= a < 360.0 * (k + 1) as real
    ensures Mod360(a) == a - 360.0 * k as real
  {
    assert k as real <= a / 360.0 < (k + 1) as real;
    assert (a / 360.0).Floor == k;
  }
}
