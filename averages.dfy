/** Trailing price windows and their arithmetic mean: what the strategy obtains from the
    host's `history` call and from the `mean` of the returned series. Prices are reals;
    floating-point rounding is not modelled. */
module Averages {

  /** The last `barCount` prices of `prices` (most recent last), as the host's history
      call returns a window of the requested length right-aligned at the current bar. */
  function Trailing(prices: seq<real>, barCount: nat): (w: seq<real>)
    requires barCount <= |prices|
    ensures |w| == barCount
    ensures prices == prices[..|prices| - barCount] + w
  {
    prices[|prices| - barCount..]
  }

  function Sum(s: seq<real>): real
  {
    if s == [] then 0.0 else s[0] + Sum(s[1..])
  }

  /** Arithmetic mean of a non-empty window: the value that, taken once per bar,
      adds up to the window's total. */
  function Mean(s: seq<real>): (m: real)
    requires |s| > 0
    ensures m * (|s| as real) == Sum(s)
  {
    Sum(s) / (|s| as real)
  }

  /** Every element within [lo, hi] bounds the sum by |s|*lo and |s|*hi. */
  lemma {:induction false} SumWithin(s: seq<real>, lo: real, hi: real)
    requires forall k :: 0 <= k < |s| ==> lo <= s[k] <= hi
    ensures (|s| as real) * lo <= Sum(s) <= (|s| as real) * hi
  {
    if s != [] {
      SumWithin(s[1..], lo, hi);
      var n := |s[1..]| as real;
      assert (n + 1.0) * lo == n * lo + lo;
      assert (n + 1.0) * hi == n * hi + hi;
    }
  }

  /** The mean lies between any lower and upper bound of the window's prices. */
  lemma MeanWithin(s: seq<real>, lo: real, hi: real)
    requires |s| > 0
    requires forall k :: 0 <= k < |s| ==> lo <= s[k] <= hi
    ensures lo <= Mean(s) <= hi
  {
    SumWithin(s, lo, hi);
    var n := |s| as real;
    assert Mean(s) * n == Sum(s);
  }

  /** The mean of a window of equal prices is that price. */
  lemma MeanOfConstant(s: seq<real>, c: real)
    requires |s| > 0
    requires forall k :: 0 <= k < |s| ==> s[k] == c
    ensures Mean(s) == c
  {
    MeanWithin(s, c, c);
  }

  lemma {:induction false} SumMonotone(s: seq<real>, t: seq<real>)
    requires |s| == |t|
    requires forall k :: 0 <= k < |s| ==> s[k] <= t[k]
    ensures Sum(s) <= Sum(t)
    ensures Sum(s) == Sum(t) ==> s == t
  {
    if s != [] {
      SumMonotone(s[1..], t[1..]);
      if Sum(s) == Sum(t) {
        assert s[0] == t[0];
        assert s == [s[0]] + s[1..] && t == [t[0]] + t[1..];
      }
    }
  }

  /** Raising prices of a window never lowers its mean, and leaves it unchanged only when
      no price actually moved: the mean is strictly monotone in every price of the window. */
  lemma MeanMonotone(s: seq<real>, t: seq<real>)
    requires |s| == |t| > 0
    requires forall k :: 0 <= k < |s| ==> s[k] <= t[k]
    ensures Mean(s) <= Mean(t)
    ensures Mean(s) == Mean(t) ==> s == t
  {
    SumMonotone(s, t);
    var n := |s| as real;
    assert Mean(s) * n == Sum(s);
    assert Mean(t) * n == Sum(t);
  }
}
