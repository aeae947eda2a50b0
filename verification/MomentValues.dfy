/** What the window statistics are worth, in the values of the window alone: their sign, and their
    size in the sums of values and of squares; and the windows on which the shape bounds are
    reached (features/definitions/volume_zscore.py, vol_regime.py, return_higher_moments.py). */
module MomentValues {
  import opened Collections
  import opened Reals
  import opened Moments

  function SumOfSquares(xs: seq<real>): real {
    if xs == [] then 0.0 else SumOfSquares(xs[..|xs| - 1]) + xs[|xs| - 1] * xs[|xs| - 1]
  }

  /** `n` times the sum of squares less the square of the sum: nothing but the spread. */
  function Spread(xs: seq<real>): real {
    |xs| as real * SumOfSquares(xs) - Sum(xs) * Sum(xs)
  }

  lemma {:induction false} SquaresAboutZero(xs: seq<real>)
    ensures Squares(xs, 0.0) == SumOfSquares(xs)
  {
    if xs != [] {
      SquaresAboutZero(xs[..|xs| - 1]);
    }
  }

  lemma SpreadIsVariance(xs: seq<real>)
    requires xs != []
    ensures Variance(xs) * (|xs| as real * |xs| as real) == Spread(xs)
  {
    hide Squares, Sum;
    SquaresAboutZero(xs);
    SquaresAboutMean(xs, 0.0);
    MeanTimes(xs);
    SpreadAlgebra(|xs| as real, Mean(xs), Sum(xs), SumOfSquares(xs), Variance(xs), Squares(xs, Mean(xs)));
  }

  lemma SpreadAlgebra(n: real, m: real, s: real, q: real, v: real, dev: real)
    requires n > 0.0 && m * n == s && v * n == dev && q == dev + n * (m * m)
    ensures v * (n * n) == n * q - s * s
  {
    assert s * s == n * (n * (m * m)) by {
      assert (m * n) * (m * n) == n * (n * (m * m));
    }
    assert v * (n * n) == (v * n) * n;
  }

  /** `value` has the sign of `g`, and `k value` is `g` in units of the root of the spread; without
      spread it is 0. */
  ghost predicate IsStandardised(value: real, k: real, g: real, spread: real) {
    && (value > 0.0 <==> g > 0.0 && spread > 0.0) && (value < 0.0 <==> g < 0.0 && spread > 0.0)
    && (spread > 0.0 ==> (k * value) * (k * value) * spread == g * g)
  }

  lemma StandardisedIs(gap: real, v: real, root: real -> real, nn: real, nk: real, k: real, g: real, spread: real)
    requires IsSqrt(root) && v >= 0.0 && nn > 0.0 && nk > 0.0 && (k * k) * nn == nk * nk
    requires v * nn == spread && gap * nk == g
    ensures IsStandardised(Standardised(gap, v, root), k, g, spread)
  {
    hide Standardised, IsSqrt;
    SignOf(v, nn, spread);
    var sd := RootSign(v, root);
    if v == 0.0 {
      FlatIsZero(gap, v, root);
    } else {
      var z := StandardQuotient(gap, v, root);
      SignOf(z, sd, gap);
      SignOf(gap, nk, g);
      SizeOf(z, sd, gap, v, nn, nk, k, g, spread);
    }
  }

  lemma TimesPositive(x: real, y: real)
    requires x > 0.0 && y > 0.0
    ensures x * y > 0.0
  {
  }

  /** A product of positive numbers, and the square of the one against the square of the other. */
  lemma Times(n: real, k: real) returns (nk: real, nn: real)
    requires n > 0.0 && k > 0.0
    ensures nk == n * k && nk > 0.0 && nn == n * n && nn > 0.0 && (k * k) * nn == nk * nk
  {
    nk, nn := n * k, n * n;
    SquareOfProduct(n, k);
  }

  lemma RootSign(v: real, root: real -> real) returns (sd: real)
    requires IsSqrt(root) && v >= 0.0
    ensures sd == root(v) && sd * sd == v && sd >= 0.0 && (sd == 0.0 <==> v == 0.0)
  {
    sd := root(v);
    ZeroSquare(sd, v);
  }

  lemma ZeroSquare(sd: real, v: real)
    requires sd * sd == v
    ensures sd == 0.0 <==> v == 0.0
  {
    if sd != 0.0 {
      NonZeroSquare(sd, v);
    } else {
      assert v == sd * sd == 0.0 * sd == 0.0;
    }
  }

  lemma FlatIsZero(gap: real, v: real, root: real -> real)
    requires root(v) == 0.0
    ensures Standardised(gap, v, root) == 0.0
  {
  }

  lemma StandardQuotient(gap: real, v: real, root: real -> real) returns (z: real)
    requires root(v) != 0.0
    ensures z == Standardised(gap, v, root) && z * root(v) == gap
  {
    z := gap / root(v);
  }

  lemma SignOf(x: real, c: real, y: real)
    requires c > 0.0 && x * c == y
    ensures (x > 0.0 <==> y > 0.0) && (x < 0.0 <==> y < 0.0)
  {
    ProductSign(x, c);
  }

  lemma SizeOf(z: real, sd: real, gap: real, v: real, nn: real, nk: real, k: real, g: real, spread: real)
    requires z * sd == gap && sd * sd == v && v * nn == spread && gap * nk == g && (k * k) * nn == nk * nk
    ensures (k * z) * (k * z) * spread == g * g
  {
    SquareOfProduct(k, z);
    SquareOfProduct(gap, nk);
    SquareOfProduct(z, sd);
    SizeAlgebra(z * z, v, nn, k * k, (k * z) * (k * z), spread);
  }

  lemma SizeAlgebra(zz: real, v: real, nn: real, kk: real, kz: real, spread: real)
    requires kz == kk * zz && v * nn == spread
    ensures kz * spread == (zz * v) * (kk * nn)
  {
  }

  lemma NonZeroSquare(e: real, q: real)
    requires e != 0.0 && e * e == q
    ensures q != 0.0
  {
    SquareNonNegative(e);
  }

  /** `n` times the sum of the last `k` values less `k` times the sum of all: positive exactly when
      the last ones lie above the mean. */
  function Excess(xs: seq<real>, k: nat): real
    requires k <= |xs|
  {
    |xs| as real * Sum(xs[|xs| - k..]) - k as real * Sum(xs)
  }

  /** The z-score of the last value: positive exactly above the mean, and its square is that of the
      excess over the spread. */
  lemma ZScoreIs(xs: seq<real>, root: real -> real)
    requires IsSqrt(root)
    ensures ZScore(xs, root).Some? <==> |xs| >= 2
    ensures |xs| >= 2 ==>
      IsStandardised(ZScore(xs, root).value, 1.0, Excess(xs, 1), Spread(xs))
  {
    hide Standardised, Variance, Spread, IsStandardised, Mean, Excess;
    if |xs| >= 2 {
      var last := xs[|xs| - 1..];
      assert last == [xs[|xs| - 1]];
      MeanOfOne(xs[|xs| - 1]);
      TailIs(xs, 1, Mean(last) - Mean(xs), root);
    }
  }

  lemma TailIs(xs: seq<real>, k: nat, gap: real, root: real -> real)
    requires IsSqrt(root) && 0 < k < |xs| && gap == Mean(xs[|xs| - k..]) - Mean(xs)
    ensures IsStandardised(Standardised(gap, Variance(xs), root), k as real, Excess(xs, k), Spread(xs))
  {
    hide Standardised, Variance, Spread, IsStandardised, Mean, Sum;
    var n, c, short := |xs| as real, k as real, xs[|xs| - k..];
    var nk, nn := Times(n, c);
    SpreadIsVariance(xs);
    VarianceNonNegative(xs);
    MeanTimes(xs);
    MeanTimes(short);
    GapTimes(Mean(short), Mean(xs), n, c, nk, Sum(short), Sum(xs));
    StandardisedIs(gap, Variance(xs), root, nn, nk, c, Excess(xs, k), Spread(xs));
  }

  /** The regime value of the last `k` values: the same, in units of `k`. */
  lemma RegimeIs(xs: seq<real>, k: nat, root: real -> real)
    requires IsSqrt(root) && 0 < k < |xs|
    ensures IsStandardised(Regime(xs, k, root), k as real, Excess(xs, k), Spread(xs))
  {
    hide Standardised, Variance, Spread, IsStandardised, Mean, Excess, Regime;
    RegimeBound(xs, k, root);
    RegimeIsStandardised(xs, k, root);
    TailIs(xs, k, Mean(xs[|xs| - k..]) - Mean(xs), root);
  }

  lemma GapTimes(short: real, long: real, n: real, c: real, nk: real, shortSum: real, longSum: real)
    requires short * c == shortSum && long * n == longSum && nk == n * c
    ensures (short - long) * nk == n * shortSum - c * longSum
  {
    Regroup(n, short, c);
    Regroup(c, long, n);
    assert (short - long) * nk == short * nk - long * nk;
    assert short * (n * c) == n * (short * c);
    assert long * (n * c) == c * (long * n);
  }

  lemma RegimeIsStandardised(xs: seq<real>, k: nat, root: real -> real)
    requires 0 < k < |xs|
    requires root(Variance(xs)) == 0.0 ==> Regime(xs, k, root) == 0.0
    ensures Regime(xs, k, root) == Standardised(Mean(xs[|xs| - k..]) - Mean(xs), Variance(xs), root)
  {
  }

  // ------------------------------------------------------------- the shape bounds are reached

  /** `n` equal values. */
  function Level(n: nat, a: real): (xs: seq<real>)
    ensures |xs| == n && forall i :: 0 <= i < n ==> xs[i] == a
  {
    seq(n, i => a)
  }

  lemma {:induction false} ConstantPowers(n: nat, a: real, c: real, p: nat)
    ensures Powers(Level(n, a), c, p) == n as real * Power(a - c, p)
  {
    var xs := Level(n, a);
    if n > 0 {
      hide Power, Level;
      var m: nat := n - 1;
      assert xs[..m] == Level(m, a);
      ConstantPowers(m, a, c, p);
      assert m as real * Power(a - c, p) + Power(a - c, p) == n as real * Power(a - c, p);
    }
  }

  lemma PowersSnoc(front: seq<real>, x: real, c: real, p: nat)
    ensures Powers(front + [x], c, p) == Powers(front, c, p) + Power(x - c, p)
  {
    assert (front + [x])[..|front|] == front;
  }

  lemma LevelSum(n: nat, a: real)
    ensures Sum(Level(n, a)) == n as real * a
  {
    ConstantWindow(n, a, 0.0);
    assert Level(n, a) == seq(n, i => a);
  }

  /** Power sums of a window that is constant but for its last value, about its mean. */
  lemma OutlierPowers(xs: seq<real>, n: nat, a: real, b: real, m: real, p: nat)
    requires n >= 1 && xs == Level(n, a) + [b] && m == Mean(xs)
    ensures Product(Moment(xs, p), |xs| as real) == Product(n as real, Power(a - m, p)) + Power(b - m, p)
  {
    hide Powers, Power, Mean, Moment, Level;
    MomentTimes(xs, p);
    ConstantPowers(n, a, m, p);
    PowersSnoc(Level(n, a), b, m, p);
  }

  /** How far the equal values lie below the mean. */
  lemma OutlierMean(n: nat, a: real, b: real) returns (e: real)
    requires n >= 1
    ensures var m := Mean(Level(n, a) + [b]);
      e * (n as real + 1.0) == b - a && a - m == -e && b - m == n as real * e
  {
    hide Mean, Sum, Squares, Level;
    var front, c := Level(n, a), n as real;
    var m := Mean(front + [b]);
    e := m - a;
    MeanTimes(front + [b]);
    SumAppend(front, [b]);
    LevelSum(n, a);
    OneValue(b, m);
    assert m * (c + 1.0) == c * a + b;
    assert c * e == c * m - c * a;
  }

  /** Moments of such a window, in the deviation `-e` of the equal values and its square. */
  lemma OutlierMoments(n: nat, a: real, b: real) returns (e: real, q: real)
    requires n >= 1
    ensures var xs := Level(n, a) + [b];
      && e * (n as real + 1.0) == b - a && q == e * e
      && Moment(xs, 2) == n as real * q
      && Moment(xs, 3) == n as real * (n as real - 1.0) * (e * q)
      && Moment(xs, 4) == n as real * (n as real * n as real - n as real + 1.0) * (q * q)
  {
    hide Power, Mean, Moment, Level, Product;
    var xs, c := Level(n, a) + [b], n as real;
    var m := Mean(xs);
    e := OutlierMean(n, a, b);
    q := e * e;
    OutlierPowers(xs, n, a, b, m, 2);
    OutlierPowers(xs, n, a, b, m, 3);
    OutlierPowers(xs, n, a, b, m, 4);
    MomentsFromPowers(c, |xs| as real, e, q, a - m, b - m, Moment(xs, 2), Moment(xs, 3), Moment(xs, 4));
  }

  lemma MomentsFromPowers(
      c: real, size: real, e: real, q: real, low: real, high: real, m2: real, m3: real, m4: real)
    requires c >= 1.0 && size == c + 1.0 && q == e * e && low == -e && high == c * e
    requires Product(m2, size) == Product(c, Power(low, 2)) + Power(high, 2)
    requires Product(m3, size) == Product(c, Power(low, 3)) + Power(high, 3)
    requires Product(m4, size) == Product(c, Power(low, 4)) + Power(high, 4)
    ensures m2 == c * q && m3 == c * (c - 1.0) * (e * q)
    ensures m4 == c * (c * c - c + 1.0) * (q * q)
  {
    hide Power, Product;
    PowersOf(low);
    PowersOf(high);
    SecondMoment(c, size, e, q, m2, low, high);
    ThirdMoment(c, size, e, q, m3, low, high);
    FourthMoment(c, size, e, q, m4, low, high);
  }

  lemma SecondMoment(c: real, size: real, e: real, q: real, m2: real, low: real, high: real)
    requires c >= 1.0 && size == c + 1.0 && q == e * e && low == -e && high == c * e
    requires Product(m2, size) == Product(c, low * low) + high * high
    ensures m2 == c * q
  {
    SecondPower(c, e);
    CancelFactor(m2, c * (e * e), size);
  }

  lemma ThirdMoment(c: real, size: real, e: real, q: real, m3: real, low: real, high: real)
    requires c >= 1.0 && size == c + 1.0 && q == e * e && low == -e && high == c * e
    requires Product(m3, size) == Product(c, low * (low * low)) + high * (high * high)
    ensures m3 == c * (c - 1.0) * (e * q)
  {
    ThirdPower(c, e);
    CancelFactor(m3, c * (c - 1.0) * (e * (e * e)), size);
  }

  lemma FourthMoment(c: real, size: real, e: real, q: real, m4: real, low: real, high: real)
    requires c >= 1.0 && size == c + 1.0 && q == e * e && low == -e && high == c * e
    requires Product(m4, size) == Product(c, (low * low) * (low * low)) + (high * high) * (high * high)
    ensures m4 == c * (c * c - c + 1.0) * (q * q)
  {
    FourthPower(c, e);
    CancelFactor(m4, c * (c * c - c + 1.0) * ((e * e) * (e * e)), size);
  }

  lemma SecondPower(n: real, e: real)
    ensures n * (-e * -e) + (n * e) * (n * e) == (n * (e * e)) * (n + 1.0)
  {
  }

  lemma ThirdPower(n: real, e: real)
    ensures n * (-e * (-e * -e)) + (n * e) * ((n * e) * (n * e)) == (n * (n - 1.0) * (e * (e * e))) * (n + 1.0)
  {
  }

  lemma FourthPower(n: real, e: real)
    ensures n * ((-e * -e) * (-e * -e)) + ((n * e) * (n * e)) * ((n * e) * (n * e))
         == (n * (n * n - n + 1.0) * ((e * e) * (e * e))) * (n + 1.0)
  {
  }

  lemma CancelFactor(x: real, y: real, c: real)
    requires c != 0.0 && x * c == y * c
    ensures x == y
  {
    assert (x - y) * c == 0.0;
  }

  /** One value standing out of `n` equal ones: the excess kurtosis is `n + 1/n - 4`, the skewness has
      the sign of the outlier, and `skew^2 == kurtosis + 2`: both shape bounds are reached. */
  lemma ShapeBoundsAreSharp(n: nat, a: real, b: real, root: real -> real)
    requires IsSqrt(root) && n >= 3 && a != b
    ensures var xs := Level(n, a) + [b];
      && Kurtosis(xs).Some? && Skew(xs, root).Some?
      && Kurtosis(xs).value == n as real + 1.0 / n as real - 4.0
      && (Skew(xs, root).value > 0.0 <==> b > a)
      && Skew(xs, root).value * Skew(xs, root).value == Kurtosis(xs).value + 2.0
  {
    hide Moment, SkewOf, KurtosisOf, Level;
    var xs, c := Level(n, a) + [b], n as real;
    var e, q := OutlierMoments(n, a, b);
    assert e != 0.0;
    SignOf(e, c + 1.0, b - a);
    PositiveSquare(e, q);
    TimesPositive(c, q);
    OutlierKurtosis(c, q, Moment(xs, 2), Moment(xs, 4));
    OutlierSkew(c, e, q, Moment(xs, 2), Moment(xs, 3), root);
    OutlierTie(c, Skew(xs, root).value, Kurtosis(xs).value);
  }

  lemma OutlierTie(c: real, s: real, k: real)
    requires c >= 1.0 && (s * s) * c == (c - 1.0) * (c - 1.0) && k == c + 1.0 / c - 4.0
    ensures s * s == k + 2.0
  {
    var inverse := 1.0 / c;
    assert inverse * c == 1.0;
    assert (c + inverse - 2.0) * c == (c - 1.0) * (c - 1.0);
    CancelFactor(s * s, c + inverse - 2.0, c);
  }

  lemma PositiveSquare(e: real, q: real)
    requires e != 0.0 && q == e * e
    ensures q > 0.0
  {
    SquareNonNegative(e);
  }

  lemma KurtosisIdentity(n: real, q: real, inverse: real)
    requires inverse * n == 1.0
    ensures (n - 1.0 + inverse) * ((n * q) * (n * q)) == n * (n * n - n + 1.0) * (q * q)
  {
    assert (n - 1.0 + inverse) * ((n * q) * (n * q)) == ((n - 1.0) * n + inverse * n) * (n * (q * q));
  }

  lemma OutlierKurtosis(n: real, q: real, m2: real, m4: real)
    requires n >= 1.0 && q > 0.0 && m2 == n * q && m4 == n * (n * n - n + 1.0) * (q * q)
    ensures KurtosisOf(m2, m4) == n + 1.0 / n - 4.0
  {
    hide Quotient;
    TimesPositive(n, q);
    TimesPositive(m2, m2);
    var d := Square(m2);
    QuotientTimes(m4, d);
    KurtosisIdentity(n, q, 1.0 / n);
    CancelFactor(Quotient(m4, d), n - 1.0 + 1.0 / n, d);
  }

  lemma SkewIdentity(n: real, e: real, q: real, s: real, sd: real)
    requires s * ((n * q) * sd) == n * (n - 1.0) * (e * q)
    ensures (s * sd) * (n * q) == ((n - 1.0) * e) * (n * q)
  {
  }

  lemma SquareOfProduct(x: real, y: real)
    ensures (x * y) * (x * y) == (x * x) * (y * y)
  {
  }

  lemma SkewSquared(n: real, e: real, q: real, s: real, sd: real)
    requires sd * sd == n * q && q == e * e && s * sd == (n - 1.0) * e
    ensures ((s * s) * n) * q == ((n - 1.0) * (n - 1.0)) * q
  {
    SquareOfProduct(s, sd);
    SquareOfProduct(n - 1.0, e);
    var t, u := s * sd, (n - 1.0) * e;
    assert t * t == u * u;
    SkewLink(s * s, sd * sd, t * t, n, q, (n - 1.0) * (n - 1.0));
  }

  lemma SkewLink(ss: real, m: real, tt: real, n: real, q: real, w: real)
    requires tt == ss * m && m == n * q && tt == w * q
    ensures (ss * n) * q == w * q
  {
    Regroup(ss, n, q);
  }

  lemma Regroup(x: real, n: real, q: real)
    ensures (x * n) * q == x * (n * q)
  {
  }

  lemma OutlierSkew(n: real, e: real, q: real, m2: real, m3: real, root: real -> real)
    requires IsSqrt(root) && n >= 3.0 && q > 0.0 && q == e * e && m2 > 0.0
    requires m2 == n * q && m3 == n * (n - 1.0) * (e * q)
    ensures SkewOf(m2, m3, root) > 0.0 <==> e > 0.0
    ensures (SkewOf(m2, m3, root) * SkewOf(m2, m3, root)) * n == (n - 1.0) * (n - 1.0)
  {
    hide SkewOf, IsSqrt;
    var sd := root(m2);
    var s := SkewTimes(m2, m3, sd, root);
    SkewIdentity(n, e, q, s, sd);
    CancelFactor(s * sd, (n - 1.0) * e, m2);
    SignOf(s, sd, (n - 1.0) * e);
    SignOf(e, n - 1.0, (n - 1.0) * e);
    SkewSquared(n, e, q, s, sd);
    CancelFactor((s * s) * n, (n - 1.0) * (n - 1.0), q);
  }

  lemma SkewTimes(m2: real, m3: real, sd: real, root: real -> real) returns (s: real)
    requires IsSqrt(root) && m2 > 0.0 && sd == root(m2)
    ensures sd > 0.0 && sd * sd == m2 && s == SkewOf(m2, m3, root) && s * (m2 * sd) == m3
  {
    hide Quotient;
    var x := RootOf(m2, root);
    s := SkewOf(m2, m3, root);
    QuotientTimes(m3, Product(m2, sd));
  }

  lemma {:induction false} NoDeviation(n: nat, a: real, p: nat)
    requires n >= 1 && p >= 1
    ensures Mean(Level(n, a)) == a && Moment(Level(n, a), p) == 0.0
  {
    hide Powers, Level, Mean, Moment;
    var xs := Level(n, a);
    LevelSum(n, a);
    MeanTimes(xs);
    CancelFactor(Mean(xs), a, n as real);
    MomentTimes(xs, p);
    ConstantPowers(n, a, a, p);
    assert Power(0.0, p) == 0.0 * Power(0.0, p - 1);
    assert Moment(xs, p) * n as real == 0.0 * n as real;
    CancelFactor(Moment(xs, p), 0.0, n as real);
  }

  /** Equal returns have shape zero; below three (four) returns there is no skewness (kurtosis). */
  lemma ShapeDefinedIff(xs: seq<real>, n: nat, a: real, root: real -> real)
    requires IsSqrt(root)
    ensures Skew(xs, root).Some? <==> |xs| >= 3
    ensures Kurtosis(xs).Some? <==> |xs| >= 4
    ensures n >= 3 ==> Skew(Level(n, a), root) == Some(0.0)
    ensures n >= 4 ==> Kurtosis(Level(n, a)) == Some(0.0)
  {
    hide Moment, Level;
    if n >= 3 {
      NoDeviation(n, a, 2);
      ProductUnits(root(0.0));
    }
  }
}
