/** The numeric helpers of `LossDivergenceChecker.check` over exact reals: Python's
    `min`/`max`, the min/range normalisation, and the slope of an ordinary-least-squares
    line, which `check` takes from `scipy.stats.linregress`. */
module Regression {

  /** Python's `min` over a non-empty window. */
  function Min(s: seq<real>): (m: real)
    requires |s| > 0
    ensures m in s
    ensures forall x | x in s :: m <= x
  {
    if |s| == 1 then s[0]
    else
      var rest := Min(s[1..]);
      assert s == [s[0]] + s[1..];
      if s[0] <= rest then s[0] else rest
  }

  /** Python's `max` over a non-empty window. */
  function Max(s: seq<real>): (m: real)
    requires |s| > 0
    ensures m in s
    ensures forall x | x in s :: x <= m
  {
    if |s| == 1 then s[0]
    else
      var rest := Max(s[1..]);
      assert s == [s[0]] + s[1..];
      if s[0] >= rest then s[0] else rest
  }

  /** True when not all elements of `xs` are the same. */
  predicate Spread(xs: seq<real>)
  {
    exists i, j | 0 <= i < |xs| && 0 <= j < |xs| :: xs[i] != xs[j]
  }

  /** For a non-empty sequence, being spread out is having a positive range. */
  lemma SpreadIffRange(s: seq<real>)
    requires |s| > 0
    ensures Spread(s) <==> Max(s) > Min(s)
  {
  }

  /** A value rescaled against the window's minimum and range. */
  function Normalize(v: real, lo: real, range: real): (r: real)
    requires range != 0.0
    ensures range > 0.0 && lo <= v <= lo + range ==> 0.0 <= r <= 1.0
    ensures v == lo ==> r == 0.0
    ensures v == lo + range ==> r == 1.0
  {
    (v - lo) / range
  }

  /** Every element rescaled to the unit interval against the sequence's own minimum
      and range: `(np.array(xs) - min(xs)) / (max(xs) - min(xs))`. */
  function NormalizeAll(xs: seq<real>): (r: seq<real>)
    requires Spread(xs)
    ensures |r| == |xs|
    ensures forall i | 0 <= i < |r| :: 0.0 <= r[i] <= 1.0
    ensures forall i | 0 <= i < |r| :: r[i] == 0.0 <==> xs[i] == Min(xs)
    ensures Spread(r)
  {
    var lo := Min(xs);
    var range := Max(xs) - lo;
    assert range > 0.0 by {
      var i, j :| 0 <= i < |xs| && 0 <= j < |xs| && xs[i] != xs[j];
      assert xs[i] in xs && xs[j] in xs;
    }
    var r := seq(|xs|, i requires 0 <= i < |xs| => Normalize(xs[i], lo, range));
    assert forall i | 0 <= i < |r| :: xs[i] in xs;
    assert Spread(r) by {
      var i :| 0 <= i < |xs| && xs[i] == lo;
      var j :| 0 <= j < |xs| && xs[j] == Max(xs);
      assert r[i] == 0.0 && r[j] == 1.0;
    }
    r
  }

  /** Element `i` of the normalised sequence is element `i` rescaled against the
      sequence's minimum and range. */
  lemma NormalizeAllAt(xs: seq<real>, i: int)
    requires Spread(xs) && 0 <= i < |xs|
    ensures Max(xs) - Min(xs) != 0.0
    ensures NormalizeAll(xs)[i] == Normalize(xs[i], Min(xs), Max(xs) - Min(xs))
  {
    SpreadIffRange(xs);
    var lo, range := Min(xs), Max(xs) - Min(xs);
    var f := k requires 0 <= k < |xs| => Normalize(xs[k], lo, range);
    assert NormalizeAll(xs) == seq(|xs|, f);
    assert seq(|xs|, f)[i] == f(i);
  }

  function Sum(s: seq<real>): (total: real)
  {
    if s == [] then 0.0 else Sum(s[..|s| - 1]) + s[|s| - 1]
  }

  function Mean(s: seq<real>): (m: real)
    requires |s| > 0
  {
    Sum(s) / |s| as real
  }

  function Square(d: real): (sq: real)
  {
    d * d
  }

  /** The sum of squared deviations of `xs` from `m`. */
  function SumSq(xs: seq<real>, m: real): (total: real)
  {
    if xs == [] then 0.0 else SumSq(xs[..|xs| - 1], m) + Square(xs[|xs| - 1] - m)
  }

  /** The sum of the products of the deviations of `xs` from `mx` and of `ys` from `my`. */
  function SumCross(xs: seq<real>, ys: seq<real>, mx: real, my: real): (total: real)
    requires |xs| == |ys|
  {
    if xs == [] then 0.0
    else SumCross(xs[..|xs| - 1], ys[..|ys| - 1], mx, my) + (xs[|xs| - 1] - mx) * (ys[|ys| - 1] - my)
  }

  /** A sum of squared deviations bounds each of its terms from above. */
  lemma {:induction false} SumSqAtLeastTerm(xs: seq<real>, m: real, k: nat)
    requires k < |xs|
    ensures SumSq(xs, m) >= Square(xs[k] - m) >= 0.0
  {
    var n := |xs|;
    SquareNonNegative(xs[n - 1] - m);
    SquareNonNegative(xs[k] - m);
    if k == n - 1 {
      SumSqNonNegative(xs[..n - 1], m);
    } else {
      SumSqAtLeastTerm(xs[..n - 1], m, k);
    }
  }

  lemma {:induction false} SumSqNonNegative(xs: seq<real>, m: real)
    ensures SumSq(xs, m) >= 0.0
  {
    if xs != [] {
      SquareNonNegative(xs[|xs| - 1] - m);
      SumSqNonNegative(xs[..|xs| - 1], m);
    }
  }

  /** Not all `xs` equal is exactly what keeps the slope's denominator away from zero. */
  lemma SumSqPositive(xs: seq<real>, m: real)
    requires Spread(xs)
    ensures SumSq(xs, m) > 0.0
  {
    var i, j :| 0 <= i < |xs| && 0 <= j < |xs| && xs[i] != xs[j];
    var k := if xs[i] != m then i else j;
    SquarePositive(xs[k] - m);
    SumSqAtLeastTerm(xs, m, k);
  }

  lemma SquareNonNegative(d: real)
    ensures Square(d) >= 0.0
  {
  }

  lemma SquarePositive(d: real)
    requires d != 0.0
    ensures Square(d) > 0.0
  {
    calc {
      Square(d);
      d * d;
    >
      0.0;
    }
  }

  /** The ordinary-least-squares slope of `ys` on `xs`:
      Σ(x − x̄)(y − ȳ) / Σ(x − x̄)², the `slope` of `linregress(xs, ys)`. */
  function OlsSlope(xs: seq<real>, ys: seq<real>): (slope: real)
    requires |xs| == |ys| && Spread(xs)
    ensures slope > 0.0 <==> SumCross(xs, ys, Mean(xs), Mean(ys)) > 0.0
    ensures slope == 0.0 <==> SumCross(xs, ys, Mean(xs), Mean(ys)) == 0.0
  {
    var mx := Mean(xs);
    SumSqPositive(xs, mx);
    QuotientSign(SumCross(xs, ys, mx, Mean(ys)), SumSq(xs, mx));
    SumCross(xs, ys, mx, Mean(ys)) / SumSq(xs, mx)
  }

  lemma QuotientSign(c: real, d: real)
    requires d > 0.0
    ensures c / d > 0.0 <==> c > 0.0
    ensures c / d == 0.0 <==> c == 0.0
  {
    assert c == (c / d) * d;
  }

  /** Points on the line y = x, with not all `xs` equal, have slope 1. */
  lemma OlsSlopeOfIdentity(xs: seq<real>)
    requires Spread(xs)
    ensures OlsSlope(xs, xs) == 1.0
  {
    var m := Mean(xs);
    SumCrossSelf(xs, m);
    SumSqPositive(xs, m);
    SelfQuotient(SumSq(xs, m));
  }

  lemma SelfQuotient(s: real)
    requires s != 0.0
    ensures s / s == 1.0
  {
  }

  lemma {:induction false} SumCrossSelf(xs: seq<real>, m: real)
    ensures SumCross(xs, xs, m, m) == SumSq(xs, m)
  {
    if xs != [] {
      SumCrossSelf(xs[..|xs| - 1], m);
    }
  }

  /** Points on a horizontal line, with not all `xs` equal, have slope 0. */
  lemma OlsSlopeOfFlat(xs: seq<real>, ys: seq<real>, c: real)
    requires |xs| == |ys| && Spread(xs)
    requires forall i | 0 <= i < |ys| :: ys[i] == c
    ensures OlsSlope(xs, ys) == 0.0
  {
    MeanOfConstant(ys, c);
    SumCrossFlat(xs, ys, Mean(xs), c);
  }

  lemma MeanOfConstant(ys: seq<real>, c: real)
    requires |ys| > 0 && forall i | 0 <= i < |ys| :: ys[i] == c
    ensures Mean(ys) == c
  {
    var n := |ys| as real;
    SumOfConstant(ys, c);
    assert Sum(ys) / n == (n * c) / n;
  }

  lemma {:induction false} SumOfConstant(ys: seq<real>, c: real)
    requires forall i | 0 <= i < |ys| :: ys[i] == c
    ensures Sum(ys) == |ys| as real * c
  {
    if ys != [] {
      var n := |ys|;
      SumOfConstant(ys[..n - 1], c);
      assert ys[n - 1] == c;
      assert (n - 1) as real * c + c == n as real * c;
    }
  }

  lemma {:induction false} SumCrossFlat(xs: seq<real>, ys: seq<real>, mx: real, c: real)
    requires |xs| == |ys| && forall i | 0 <= i < |ys| :: ys[i] == c
    ensures SumCross(xs, ys, mx, c) == 0.0
  {
    if xs != [] {
      var n := |xs|;
      SumCrossFlat(xs[..n - 1], ys[..n - 1], mx, c);
      assert ys[n - 1] - c == 0.0;
    }
  }
}
