/** Standardised statistics over windows and the sharp bounds they obey
    (features/definitions/volume_zscore.py, funding.py, return_higher_moments.py). */
module Moments {
  import opened Collections
  import opened Reals

  /** `math.sqrt`. */
  ghost predicate IsSqrt(root: real -> real) {
    forall x {:trigger root(x)} :: x >= 0.0 ==> root(x) >= 0.0 && root(x) * root(x) == x
  }

  function Sum(xs: seq<real>): real {
    if xs == [] then 0.0 else Sum(xs[..|xs| - 1]) + xs[|xs| - 1]
  }

  function Square(x: real): (r: real)
    ensures r >= 0.0
  {
    SquareNonNegative(x);
    x * x
  }

  /** Sum of squared deviations from `c`. */
  function Squares(xs: seq<real>, c: real): (r: real)
    ensures r >= 0.0
  {
    if xs == [] then 0.0 else Squares(xs[..|xs| - 1], c) + Square(xs[|xs| - 1] - c)
  }

  function Mean(xs: seq<real>): real
    requires xs != []
  {
    Sum(xs) / |xs| as real
  }

  function Variance(xs: seq<real>): real
    requires xs != []
  {
    Squares(xs, Mean(xs)) / |xs| as real
  }

  /** `(value - mean) / sd`, and 0 where the deviation vanishes. */
  function Standardised(gap: real, variance: real, root: real -> real): real {
    if root(variance) == 0.0 then 0.0 else gap / root(variance)
  }

  /** Z-score of the last value against its whole window. */
  function ZScore(xs: seq<real>, root: real -> real): Option<real> {
    if |xs| < 2 then None else Some(Standardised(xs[|xs| - 1] - Mean(xs), Variance(xs), root))
  }

  // ------------------------------------------------------------- deviations

  lemma {:induction false} SumAppend(xs: seq<real>, ys: seq<real>)
    ensures Sum(xs + ys) == Sum(xs) + Sum(ys)
  {
    if ys == [] {
      assert xs + ys == xs;
    } else {
      var n := |ys| - 1;
      SumAppend(xs, ys[..n]);
      assert (xs + ys)[..|xs| + n] == xs + ys[..n];
    }
  }

  lemma {:induction false} SquaresAppend(xs: seq<real>, ys: seq<real>, c: real)
    ensures Squares(xs + ys, c) == Squares(xs, c) + Squares(ys, c)
  {
    if ys == [] {
      assert xs + ys == xs;
    } else {
      var n := |ys| - 1;
      SquaresAppend(xs, ys[..n], c);
      assert (xs + ys)[..|xs| + n] == xs + ys[..n];
    }
  }

  lemma MeanTimes(xs: seq<real>)
    requires xs != []
    ensures Mean(xs) * |xs| as real == Sum(xs)
  {
  }

  /** What moving the centre of `n` values with sum `s` from `m` to `c` adds. */
  function ShiftCost(s: real, n: real, c: real, m: real): real {
    2.0 * (m - c) * (s - n * m) + n * Square(m - c)
  }

  lemma ShiftNext(s: real, n: real, c: real, m: real, x: real)
    ensures ShiftCost(s + x, n + 1.0, c, m) == ShiftCost(s, n, c, m) + (Square(x - c) - Square(x - m))
  {
    assert Square(x - c) - Square(x - m) == 2.0 * (m - c) * (x - m) + Square(m - c);
    var d, q := 2.0 * (m - c), Square(m - c);
    assert d * (s + x - (n + 1.0) * m) == d * (s - n * m) + d * (x - m);
    assert (n + 1.0) * q == n * q + q;
  }

  lemma NoShift(c: real, m: real)
    ensures ShiftCost(0.0, 0.0, c, m) == 0.0
  {
  }

  /** Deviations from `c`, through deviations from any other point `m`. */
  lemma {:induction false} SquaresShift(xs: seq<real>, c: real, m: real)
    ensures Squares(xs, c) == Squares(xs, m) + ShiftCost(Sum(xs), |xs| as real, c, m)
  {
    hide Square, ShiftCost;
    if xs == [] {
      NoShift(c, m);
    } else {
      var n := |xs| - 1;
      SquaresShift(xs[..n], c, m);
      ShiftNext(Sum(xs[..n]), n as real, c, m, xs[n]);
      assert n as real + 1.0 == |xs| as real;
    }
  }

  /** The mean is the best centre, and any other costs its squared distance per value. */
  lemma SquaresAboutMean(xs: seq<real>, c: real)
    requires xs != []
    ensures Squares(xs, c) == Squares(xs, Mean(xs)) + |xs| as real * Square(Mean(xs) - c)
  {
    hide Square, Squares;
    var m := Mean(xs);
    SquaresShift(xs, c, m);
    MeanTimes(xs);
  }

  /** A part of a window strays from the window's mean by a bounded amount: with `k` of `n` values
      in the tail, `k * gap^2 <= (n - k) * variance`. */
  lemma TailMeanBound(front: seq<real>, tail: seq<real>)
    requires front != [] && tail != []
    ensures var xs := front + tail;
      |tail| as real * Square(Mean(tail) - Mean(xs)) <= |front| as real * Variance(xs)
  {
    hide Square, Squares, Mean, Sum;
    var xs := front + tail;
    var m := Mean(xs);
    var k, l := |tail| as real, |front| as real;
    SquaresAppend(front, tail, m);
    SquaresAboutMean(front, m);
    SquaresAboutMean(tail, m);
    SumAppend(front, tail);
    MeanTimes(front);
    MeanTimes(tail);
    MeanTimes(xs);
    TailAlgebra(k, l, Mean(tail) - m, Mean(front) - m, Variance(xs), Square(Mean(tail) - m), Square(Mean(front) - m));
  }

  lemma TailAlgebra(k: real, l: real, g: real, h: real, v: real, gg: real, hh: real)
    requires k > 0.0 && l > 0.0 && k * g == -(l * h)
    requires gg == Square(g) && hh == Square(h)
    requires k * gg + l * hh <= v * (k + l)
    ensures k * gg <= l * v
  {
    // l * (k gg + l hh) = k l gg + (l h)^2 = k l gg + k^2 gg = k gg (k + l)
    assert l * (l * hh) == k * (k * gg) by {
      assert l * (l * (h * h)) == (l * h) * (l * h);
      assert k * (k * (g * g)) == (k * g) * (k * g);
    }
    assert (k * gg) * (k + l) == l * (k * gg + l * hh);
    assert l * (k * gg + l * hh) <= l * (v * (k + l)) by {
      Scale(k * gg + l * hh, v * (k + l), l);
    }
    assert l * (v * (k + l)) == (l * v) * (k + l);
    Scale(k * gg, l * v, k + l);
  }

  // ------------------------------------------------------------- z-scores and regimes

  lemma VarianceNonNegative(xs: seq<real>)
    requires xs != []
    ensures Variance(xs) >= 0.0
  {
    hide Squares;
    Scale(Variance(xs), 0.0, |xs| as real);
    ProductUnits(|xs| as real);
  }

  /** A gap bounded against the variance is bounded when standardised. */
  lemma StandardisedBound(gap: real, variance: real, root: real -> real, k: real, l: real)
    requires IsSqrt(root) && variance >= 0.0 && k > 0.0 && l > 0.0
    requires k * Square(gap) <= l * variance
    ensures k * Square(Standardised(gap, variance, root)) <= l
    ensures root(variance) == 0.0 ==> gap == 0.0
  {
    var sd := root(variance);
    if sd == 0.0 {
      assert variance == 0.0;
      ProductUnits(l);
      ScaleWeak(0.0, Square(gap), k);
      if gap != 0.0 {
        SquareNonNegative(gap);
        ProductSign(Square(gap), k);
        ProductCommutes(k, Square(gap));
      }
    } else {
      var z := gap / sd;
      StandardisedAlgebra(z, sd, gap, variance, k);
      assert variance > 0.0 by {
        SquareNonNegative(sd);
      }
      Scale(k * Square(z), l, variance);
    }
  }

  lemma StandardisedAlgebra(z: real, sd: real, gap: real, variance: real, k: real)
    requires z * sd == gap && sd * sd == variance
    ensures k * Square(z) * variance == k * Square(gap)
  {
    assert gap * gap == (z * z) * (sd * sd) by {
      assert (z * sd) * (z * sd) == (z * z) * (sd * sd);
    }
  }

  /** A z-score over `n` values, the last one included, never exceeds sqrt(n - 1) in size. */
  lemma ZScoreBound(xs: seq<real>, root: real -> real)
    requires IsSqrt(root) && |xs| >= 2
    ensures Square(ZScore(xs, root).value) <= |xs| as real - 1.0
  {
    hide Square, Variance, Mean;
    var n := |xs| - 1;
    var front, tail := xs[..n], [xs[n]];
    assert front + tail == xs;
    TailMeanBound(front, tail);
    MeanOfOne(xs[n]);
    VarianceNonNegative(xs);
    StandardisedBound(xs[n] - Mean(xs), Variance(xs), root, 1.0, n as real);
  }

  lemma MeanOfOne(x: real)
    ensures Mean([x]) == x
  {
    assert [x][..0] == [];
    assert Sum([x]) == Sum([]) + x;
  }

  /** Short-run mean of the last `k` values against the long-run one, in long-run deviations. */
  function Regime(xs: seq<real>, k: nat, root: real -> real): real
    requires 0 < k < |xs|
  {
    var short, long := Mean(xs[|xs| - k..]), Mean(xs);
    if root(Variance(xs)) == 0.0 then (if short == long then 0.0 else if short > long then 1.0 else -1.0)
    else (short - long) / root(Variance(xs))
  }

  /** The regime value obeys `value^2 <= (long - short) / short`, and its fallback for a flat long
      window can only ever return 0: the two branches for a gap there are dead. */
  lemma RegimeBound(xs: seq<real>, k: nat, root: real -> real)
    requires IsSqrt(root) && 0 < k < |xs|
    ensures k as real * Square(Regime(xs, k, root)) <= (|xs| - k) as real
    ensures root(Variance(xs)) == 0.0 ==> Regime(xs, k, root) == 0.0
  {
    hide Square, Variance, Mean;
    var n := |xs| - k;
    var front, tail := xs[..n], xs[n..];
    assert front + tail == xs;
    TailMeanBound(front, tail);
    VarianceNonNegative(xs);
    StandardisedBound(Mean(tail) - Mean(xs), Variance(xs), root, k as real, n as real);
  }

  // ------------------------------------------------------------- the bound is sharp

  lemma {:induction false} ConstantWindow(n: nat, a: real, c: real)
    ensures var xs := seq(n, i => a); Sum(xs) == n as real * a && Squares(xs, c) == n as real * Square(a - c)
  {
    var xs := seq(n, i => a);
    if n > 0 {
      hide Square;
      var m: nat := n - 1;
      assert xs[..m] == seq(m, i => a);
      ConstantWindow(m, a, c);
      assert m as real * a + a == n as real * a;
      assert m as real * Square(a - c) + Square(a - c) == n as real * Square(a - c);
    }
  }

  /** One value standing out of an otherwise constant window reaches the bound exactly. */
  lemma ZScoreBoundIsSharp(n: nat, a: real, b: real, root: real -> real)
    requires IsSqrt(root) && n >= 1 && a != b
    ensures Square(ZScore(seq(n, i => a) + [b], root).value) == n as real
  {
    var front := seq(n, i => a);
    var xs := front + [b];
    var m := Mean(xs);
    hide Square, Variance, Mean;
    MeanTimes(xs);
    SumAppend(front, [b]);
    ConstantWindow(n, a, m);
    SquaresAppend(front, [b], m);
    OneValue(b, m);
    VarianceNonNegative(xs);
    SharpAlgebra(n as real, a, b, m, Variance(xs), root);
  }

  lemma OneValue(b: real, m: real)
    ensures Sum([b]) == b && Squares([b], m) == Square(b - m)
  {
    assert [b][..0] == [];
  }

  lemma SharpAlgebra(n: real, a: real, b: real, m: real, v: real, root: real -> real)
    requires IsSqrt(root) && n >= 1.0 && a != b && v >= 0.0
    requires m * (n + 1.0) == n * a + b
    requires v * (n + 1.0) == n * Square(a - m) + Square(b - m)
    ensures Square(Standardised(b - m, v, root)) == n
  {
    var g, h := b - m, a - m;
    assert n * h == -g;
    assert n * (n * Square(h)) == Square(g) by {
      assert n * (n * (h * h)) == (n * h) * (n * h);
    }
    assert n * (v * (n + 1.0)) == (n + 1.0) * Square(g) by {
      assert n * (n * Square(h) + Square(g)) == n * (n * Square(h)) + n * Square(g);
    }
    assert n * v == Square(g);
    SharpQuotient(g, v, n, root);
  }

  lemma SharpQuotient(g: real, v: real, n: real, root: real -> real)
    requires IsSqrt(root) && v >= 0.0 && n >= 1.0 && n * v == Square(g) && g != 0.0
    ensures Square(Standardised(g, v, root)) == n
  {
    var sd := root(v);
    assert sd * sd == v;
    SquareNonNegative(g);
    assert sd != 0.0;
    var z := g / sd;
    StandardisedAlgebra(z, sd, g, v, 1.0);
  }

  // ------------------------------------------------------------- skewness and kurtosis

  function Power(d: real, p: nat): real {
    if p == 0 then 1.0 else d * Power(d, p - 1)
  }

  /** Sum of the p-th powers of the deviations from `c`. */
  function Powers(xs: seq<real>, c: real, p: nat): real {
    if xs == [] then 0.0 else Powers(xs[..|xs| - 1], c, p) + Power(xs[|xs| - 1] - c, p)
  }

  /** The p-th central moment. */
  function Moment(xs: seq<real>, p: nat): real
    requires xs != []
  {
    Powers(xs, Mean(xs), p) / |xs| as real
  }

  /** `m3 / m2^1.5`, and 0 without spread. */
  function SkewOf(m2: real, m3: real, root: real -> real): real {
    if Product(m2, root(m2)) == 0.0 then 0.0 else Quotient(m3, Product(m2, root(m2)))
  }

  function KurtosisOf(m2: real, m4: real): real {
    SquareNonNegative(m2);
    if m2 == 0.0 then 0.0 else Quotient(m4, Square(m2)) - 3.0
  }

  /** Skewness of a window of returns; undefined below three. */
  function Skew(xs: seq<real>, root: real -> real): Option<real> {
    if |xs| < 3 then None else Some(SkewOf(Moment(xs, 2), Moment(xs, 3), root))
  }

  /** Excess kurtosis; undefined below four. */
  function Kurtosis(xs: seq<real>): Option<real> {
    if |xs| < 4 then None else Some(KurtosisOf(Moment(xs, 2), Moment(xs, 4)))
  }

  /** Sum of the squares of `d^2 - a d - b` over the deviations `d`. */
  function Quadratics(xs: seq<real>, c: real, a: real, b: real): (r: real)
    ensures r >= 0.0
  {
    if xs == [] then 0.0
    else
      var d := xs[|xs| - 1] - c;
      Quadratics(xs[..|xs| - 1], c, a, b) + Square(Power(d, 2) - a * d - b)
  }

  /** What those squares expand to in the power sums. */
  function Expanded(s1: real, s2: real, s3: real, s4: real, n: real, a: real, b: real): real {
    s4 + a * a * s2 + n * (b * b) - 2.0 * a * s3 - 2.0 * b * s2 + 2.0 * (a * b) * s1
  }

  lemma ExpandOne(d: real, a: real, b: real)
    ensures Square(Power(d, 2) - a * d - b)
         == Expanded(Power(d, 1), Power(d, 2), Power(d, 3), Power(d, 4), 1.0, a, b)
  {
    var q := d * d;
    PowersOf(d);
    assert Square(q - a * d - b)
        == q * q + a * a * q + b * b - 2.0 * a * (d * q) - 2.0 * b * q + 2.0 * (a * b) * d;
  }

  lemma PowersOf(d: real)
    ensures Power(d, 1) == d && Power(d, 2) == d * d && Power(d, 3) == d * (d * d) && Power(d, 4) == (d * d) * (d * d)
  {
    assert Power(d, 0) == 1.0;
    assert Power(d, 1) == d;
    assert Power(d, 2) == d * d;
    assert Power(d, 3) == d * (d * d);
    assert d * (d * (d * d)) == (d * d) * (d * d);
  }

  lemma ExpandedAdds(
      s1: real, s2: real, s3: real, s4: real, n: real, t1: real, t2: real, t3: real, t4: real, a: real, b: real)
    ensures Expanded(s1 + t1, s2 + t2, s3 + t3, s4 + t4, n + 1.0, a, b)
         == Expanded(s1, s2, s3, s4, n, a, b) + Expanded(t1, t2, t3, t4, 1.0, a, b)
  {
    assert a * a * (s2 + t2) == a * a * s2 + a * a * t2;
    assert 2.0 * a * (s3 + t3) == 2.0 * a * s3 + 2.0 * a * t3;
    assert 2.0 * b * (s2 + t2) == 2.0 * b * s2 + 2.0 * b * t2;
    assert 2.0 * (a * b) * (s1 + t1) == 2.0 * (a * b) * s1 + 2.0 * (a * b) * t1;
    assert (n + 1.0) * (b * b) == n * (b * b) + 1.0 * (b * b);
  }

  lemma NothingExpanded(a: real, b: real)
    ensures Expanded(0.0, 0.0, 0.0, 0.0, 0.0, a, b) == 0.0
  {
  }

  lemma {:induction false} QuadraticsExpand(xs: seq<real>, c: real, a: real, b: real)
    ensures Quadratics(xs, c, a, b)
         == Expanded(Powers(xs, c, 1), Powers(xs, c, 2), Powers(xs, c, 3), Powers(xs, c, 4), |xs| as real, a, b)
  {
    hide Square, Power, Expanded;
    if xs == [] {
      NothingExpanded(a, b);
    } else {
      var n := |xs| - 1;
      var front, d := xs[..n], xs[n] - c;
      QuadraticsExpand(front, c, a, b);
      ExpandOne(d, a, b);
      ExpandedAdds(Powers(front, c, 1), Powers(front, c, 2), Powers(front, c, 3), Powers(front, c, 4), n as real,
                   Power(d, 1), Power(d, 2), Power(d, 3), Power(d, 4), a, b);
      assert n as real + 1.0 == |xs| as real;
    }
  }

  lemma {:induction false} FirstPowers(xs: seq<real>, c: real)
    ensures Powers(xs, c, 1) == Sum(xs) - |xs| as real * c
  {
    if xs != [] {
      FirstPowers(xs[..|xs| - 1], c);
      assert Power(xs[|xs| - 1] - c, 0) == 1.0;
      assert Power(xs[|xs| - 1] - c, 1) == xs[|xs| - 1] - c;
    }
  }

  lemma {:induction false} SecondPowers(xs: seq<real>, c: real)
    ensures Powers(xs, c, 2) == Squares(xs, c)
  {
    if xs != [] {
      SecondPowers(xs[..|xs| - 1], c);
      var d := xs[|xs| - 1] - c;
      assert Power(d, 0) == 1.0 && Power(d, 1) == d && Power(d, 2) == d * d;
    }
  }

  lemma MomentTimes(xs: seq<real>, p: nat)
    requires xs != []
    ensures Moment(xs, p) * |xs| as real == Powers(xs, Mean(xs), p)
  {
    hide Powers, Mean;
  }

  /** The moment inequality behind both shape bounds: for every `a` and `b`,
      m4 + a^2 m2 + b^2 - 2 a m3 - 2 b m2 >= 0. */
  lemma MomentInequality(xs: seq<real>, a: real, b: real)
    requires xs != []
    ensures Expanded(0.0, Moment(xs, 2), Moment(xs, 3), Moment(xs, 4), 1.0, a, b) >= 0.0
  {
    hide Powers, Mean, Quadratics, Sum, Moment, Expanded;
    var n, c := |xs| as real, Mean(xs);
    QuadraticsExpand(xs, c, a, b);
    FirstPowers(xs, c);
    MeanTimes(xs);
    MomentTimes(xs, 2);
    MomentTimes(xs, 3);
    MomentTimes(xs, 4);
    assert Powers(xs, c, 1) == 0.0;
    ExpandedScales(Moment(xs, 2), Moment(xs, 3), Moment(xs, 4),
                   Powers(xs, c, 2), Powers(xs, c, 3), Powers(xs, c, 4), n, a, b);
  }

  lemma ExpandedScales(
      m2: real, m3: real, m4: real, s2: real, s3: real, s4: real, n: real, a: real, b: real)
    requires n > 0.0 && s2 == m2 * n && s3 == m3 * n && s4 == m4 * n
    requires Expanded(0.0, s2, s3, s4, n, a, b) >= 0.0
    ensures Expanded(0.0, m2, m3, m4, 1.0, a, b) >= 0.0
  {
    var e := Expanded(0.0, m2, m3, m4, 1.0, a, b);
    assert a * a * s2 == (a * a * m2) * n;
    assert 2.0 * a * s3 == (2.0 * a * m3) * n;
    assert 2.0 * b * s2 == (2.0 * b * m2) * n;
    assert n * (b * b) == (1.0 * (b * b)) * n;
    assert Expanded(0.0, s2, s3, s4, n, a, b) == e * n;
    Scale(0.0, e, n);
    ProductUnits(n);
  }

  lemma SecondMomentIsVariance(xs: seq<real>)
    requires xs != []
    ensures Moment(xs, 2) == Variance(xs)
  {
    SecondPowers(xs, Mean(xs));
  }

  /** m4 >= m2^2 and m2 m4 >= m3^2 + m2^3. */
  lemma MomentOrder(xs: seq<real>)
    requires xs != []
    ensures var m2, m3, m4 := Moment(xs, 2), Moment(xs, 3), Moment(xs, 4);
      m2 >= 0.0 && m4 >= m2 * m2 && (m2 > 0.0 ==> m2 * m4 >= m3 * m3 + m2 * (m2 * m2))
  {
    hide Moment, Variance;
    var m2, m3, m4 := Moment(xs, 2), Moment(xs, 3), Moment(xs, 4);
    SecondMomentIsVariance(xs);
    VarianceNonNegative(xs);
    MomentInequality(xs, 0.0, m2);
    if m2 > 0.0 {
      MomentInequality(xs, m3 / m2, m2);
      SlopedCase(m2, m3, m4, m3 / m2);
    }
  }

  lemma SlopedCase(m2: real, m3: real, m4: real, a: real)
    requires m2 > 0.0 && a * m2 == m3 && Expanded(0.0, m2, m3, m4, 1.0, a, m2) >= 0.0
    ensures m2 * m4 >= m3 * m3 + m2 * (m2 * m2)
  {
    var e := Expanded(0.0, m2, m3, m4, 1.0, a, m2);
    assert a * a * m2 == a * m3;
    assert e == m4 - a * m3 - m2 * m2;
    assert m2 * e == m2 * m4 - m3 * m3 - m2 * (m2 * m2) by {
      assert m2 * (a * m3) == m3 * m3;
    }
    ProductNonNegative(m2, e);
  }

  /** Excess kurtosis is at least -2, and on the same returns skew^2 <= excess kurtosis + 2, unless
      the returns are all equal, where both are reported as 0. */
  lemma ShapeBounds(xs: seq<real>, root: real -> real)
    requires IsSqrt(root) && |xs| >= 4
    ensures Kurtosis(xs).value >= -2.0
    ensures Square(Skew(xs, root).value) <= Kurtosis(xs).value + 2.0
  {
    hide Moment, SkewOf, KurtosisOf;
    var m2, m3, m4 := Moment(xs, 2), Moment(xs, 3), Moment(xs, 4);
    MomentOrder(xs);
    ShapeAlgebra(m2, m3, m4, root);
  }

  lemma ShapeAlgebra(m2: real, m3: real, m4: real, root: real -> real)
    requires IsSqrt(root) && m2 >= 0.0 && m4 >= m2 * m2 && (m2 > 0.0 ==> m2 * m4 >= m3 * m3 + m2 * (m2 * m2))
    ensures KurtosisOf(m2, m4) >= -2.0
    ensures Square(SkewOf(m2, m3, root)) <= KurtosisOf(m2, m4) + 2.0
  {
    if m2 == 0.0 {
      ProductUnits(root(m2));
    } else {
      hide Square, Product, Quotient, IsSqrt;
      var sd := RootOf(m2, root);
      Quotients(m2, m3, m4, sd);
    }
  }

  lemma Quotients(m2: real, m3: real, m4: real, sd: real)
    requires m2 > 0.0 && sd * sd == m2 && m4 >= m2 * m2 && m2 * m4 >= m3 * m3 + m2 * (m2 * m2)
    requires Product(m2, sd) != 0.0 && Square(m2) != 0.0
    ensures Quotient(m4, Square(m2)) >= 1.0
    ensures Square(Quotient(m3, Product(m2, sd))) <= Quotient(m4, Square(m2)) - 1.0
  {
    hide Square, Quotient;
    var k, s := Quotient(m4, Square(m2)), Quotient(m3, Product(m2, sd));
    QuotientTimes(m4, Square(m2));
    QuotientTimes(m3, Product(m2, sd));
    PositiveShape(m2, m3, m4, sd, k, s);
  }

  lemma RootOf(m2: real, root: real -> real) returns (sd: real)
    requires IsSqrt(root) && m2 > 0.0
    ensures sd == root(m2) && sd * sd == m2 && Product(m2, sd) != 0.0 && Square(m2) != 0.0
  {
    sd := root(m2);
    SquareNonNegative(m2);
  }

  lemma PositiveShape(m2: real, m3: real, m4: real, sd: real, k: real, s: real)
    requires m2 > 0.0 && sd * sd == m2 && m4 >= m2 * m2 && m2 * m4 >= m3 * m3 + m2 * (m2 * m2)
    requires k * Square(m2) == m4 && s * (m2 * sd) == m3
    ensures k >= 1.0 && Square(s) <= k - 1.0
  {
    var c := Square(m2);
    Scale(1.0, k, c);
    // s^2 m2^3 = m3^2 <= m2 m4 - m2^3 = (k - 1) m2^3
    var cube := m2 * c;
    CubeOfSkew(m2, m3, sd, s);
    assert (k - 1.0) * cube == m2 * m4 - m2 * (m2 * m2) by {
      assert k * (m2 * c) == m2 * (k * c);
    }
    Scale(Square(s), k - 1.0, cube);
  }

  lemma CubeOfSkew(m2: real, m3: real, sd: real, s: real)
    requires sd * sd == m2 && s * (m2 * sd) == m3
    ensures Square(s) * (m2 * Square(m2)) == m3 * m3
  {
    assert (s * (m2 * sd)) * (s * (m2 * sd)) == (s * s) * ((m2 * m2) * (sd * sd));
  }
}
