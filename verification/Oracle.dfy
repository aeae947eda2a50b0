/** The perfect-foresight benchmark (research/oracle.py). */
module Oracle {
  import opened Collections
  import opened Market
  import opened Reals

  datatype OracleResult = OracleResult(initial: real, longOnly: real, longShort: real)

  datatype OracleError = BadEquity

  /** A pair of consecutive closes that the oracle uses; others are skipped. */
  predicate Usable(a: real, b: real) {
    a > 0.0 && b > 0.0
  }

  function LongFactor(a: real, b: real): real {
    if Usable(a, b) && Quotient(b, a) > 1.0 then Quotient(b, a) else 1.0
  }

  function ShortFactor(a: real, b: real): real {
    if !Usable(a, b) || Quotient(b, a) == 1.0 then 1.0
    else if Quotient(b, a) > 1.0 then Quotient(b, a)
    else Quotient(1.0, Quotient(b, a))
  }

  function LongOnly(closes: seq<real>): real {
    if |closes| < 2 then 1.0
    else Product(LongOnly(closes[..|closes| - 1]), LongFactor(closes[|closes| - 2], closes[|closes| - 1]))
  }

  function LongShort(closes: seq<real>): real {
    if |closes| < 2 then 1.0
    else Product(LongShort(closes[..|closes| - 1]), ShortFactor(closes[|closes| - 2], closes[|closes| - 1]))
  }

  function Closes(bars: seq<Bar>): (cs: seq<real>)
    ensures |cs| == |bars| && forall i :: 0 <= i < |cs| ==> cs[i] == bars[i].close
  {
    seq(|bars|, i requires 0 <= i < |bars| => bars[i].close)
  }

  method OracleMaxPnl(bars: seq<Bar>, initial: real) returns (r: Result<OracleResult, OracleError>)
    ensures initial <= 0.0 ==> r == Failure(BadEquity)
    ensures initial > 0.0 ==>
      var closes := Closes(TimeSort(bars));
      r == Success(OracleResult(initial, Product(initial, LongOnly(closes)), Product(initial, LongShort(closes))))
  {
    if initial <= 0.0 {
      return Failure(BadEquity);
    }
    var sorted: seq<Bar> := TimeSort(bars);
    ghost var closes := Closes(sorted);
    if |sorted| < 2 {
      return Success(OracleResult(initial, initial, initial));
    }
    hide LongOnly, LongShort, Product, Quotient;
    var longOnly, longShort := 1.0, 1.0;
    for i := 1 to |sorted|
      invariant longOnly == LongOnly(closes[..i]) && longShort == LongShort(closes[..i])
    {
      var a, b := sorted[i - 1].close, sorted[i].close;
      CompoundNext(closes, i);
      ProductUnits(longOnly);
      ProductUnits(longShort);
      if a <= 0.0 || b <= 0.0 {
        continue;
      }
      var ratio := Quotient(b, a);
      if ratio > 1.0 {
        longOnly := Product(longOnly, ratio);
        longShort := Product(longShort, ratio);
      } else if ratio < 1.0 {
        longShort := Product(longShort, Quotient(1.0, ratio));
      }
    }
    assert closes[..|sorted|] == closes;
    return Success(OracleResult(initial, Product(initial, longOnly), Product(initial, longShort)));
  }

  lemma CompoundNext(closes: seq<real>, i: nat)
    requires 1 <= i < |closes|
    ensures LongOnly(closes[..i + 1]) == Product(LongOnly(closes[..i]), LongFactor(closes[i - 1], closes[i]))
    ensures LongShort(closes[..i + 1]) == Product(LongShort(closes[..i]), ShortFactor(closes[i - 1], closes[i]))
  {
    hide LongFactor, ShortFactor, Product;
    assert closes[..i + 1][..i] == closes[..i];
  }

  // ------------------------------------------------------------- what a strategy can make

  /** Growth of one bar held with exposure `e`: a fraction of equity, negative when short. */
  function Growth(a: real, b: real, e: real): real {
    if Usable(a, b) then 1.0 + Product(e, Quotient(b, a) - 1.0) else 1.0
  }

  /** Compounded growth of a sequence of exposures, one per consecutive pair of closes. */
  function Compound(closes: seq<real>, exposure: seq<real>): real
    requires |closes| >= 1 && |exposure| == |closes| - 1
  {
    if |closes| < 2 then 1.0
    else
      var n := |closes|;
      Product(Compound(closes[..n - 1], exposure[..n - 2]), Growth(closes[n - 2], closes[n - 1], exposure[n - 2]))
  }

  predicate Within(exposure: seq<real>, lo: real) {
    forall i :: 0 <= i < |exposure| ==> lo <= exposure[i] <= 1.0
  }

  lemma RatioPositive(a: real, b: real)
    requires Usable(a, b)
    ensures Quotient(b, a) > 0.0
  {
    hide Product, Quotient;
    QuotientOrder(b, a, 0.0);
    ProductUnits(a);
  }

  lemma LongGrowth(a: real, b: real, e: real)
    requires 0.0 <= e <= 1.0
    ensures 0.0 <= Growth(a, b, e) <= LongFactor(a, b) && 1.0 <= LongFactor(a, b)
  {
    if Usable(a, b) {
      RatioPositive(a, b);
      LongAlgebra(Quotient(b, a), e);
    }
  }

  lemma LongAlgebra(r: real, e: real)
    requires r > 0.0 && 0.0 <= e <= 1.0
    ensures 0.0 <= 1.0 + Product(e, r - 1.0) <= if r > 1.0 then r else 1.0
  {
    hide Product, Quotient;
    FractionBounds(e, r - 1.0);
  }

  lemma ShortGrowth(a: real, b: real, e: real)
    requires -1.0 <= e <= 1.0
    ensures Abs(Growth(a, b, e)) <= ShortFactor(a, b) && LongFactor(a, b) <= ShortFactor(a, b)
    ensures Usable(a, b) && b < a ==> Abs(Growth(a, b, e)) < ShortFactor(a, b)
  {
    if Usable(a, b) {
      RatioPositive(a, b);
      ShortAlgebra(Quotient(b, a), e);
      RatioOrder(a, b);
    }
  }

  lemma RatioOrder(a: real, b: real)
    requires Usable(a, b)
    ensures Quotient(b, a) < 1.0 <==> b < a
  {
    hide Product, Quotient;
    QuotientOrder(b, a, 1.0);
    ProductUnits(a);
  }

  lemma ShortAlgebra(r: real, e: real)
    requires r > 0.0 && -1.0 <= e <= 1.0
    ensures r >= 1.0 ==> Abs(1.0 + Product(e, r - 1.0)) <= r
    ensures r < 1.0 ==> Abs(1.0 + Product(e, r - 1.0)) < Quotient(1.0, r) && 1.0 < Quotient(1.0, r)
  {
    hide Product, Quotient;
    FractionBounds(e, r - 1.0);
    if r < 1.0 {
      Reciprocal(r);
    }
  }

  /** For a falling bar even a full short earns strictly less than the reciprocal. */
  lemma Reciprocal(r: real)
    requires 0.0 < r < 1.0
    ensures 2.0 - r < Quotient(1.0, r) && 1.0 < Quotient(1.0, r)
  {
    hide Product, Quotient;
    SquareNonNegative(1.0 - r);
    ProductOfGaps(r);
    ProductUnits(r);
    QuotientOrder(1.0, r, 2.0 - r);
    QuotientOrder(1.0, r, 1.0);
  }

  lemma TimesLeq(x: real, y: real, g: real, f: real)
    requires 0.0 <= x <= y && 0.0 <= g <= f
    ensures 0.0 <= Product(x, g) <= Product(y, f)
    ensures y > 0.0 && f > 0.0 && (x < y || g < f) ==> Product(x, g) < Product(y, f)
  {
    hide Product;
    ProductNonNegative(x, g);
    ScaleWeak(x, y, g);
    ScaleWeak(g, f, y);
    ProductCommutes(y, g);
    ProductCommutes(y, f);
    if y > 0.0 && f > 0.0 {
      Scale(g, f, y);
      Scale(x, y, f);
      ScaleWeak(g, f, x);
      ProductCommutes(x, g);
      ProductCommutes(x, f);
    }
  }

  lemma AbsTimes(x: real, y: real)
    ensures Abs(Product(x, y)) == Product(Abs(x), Abs(y))
  {
  }

  /** Initial equity is at most the long-only oracle, which is at most the long/short one. */
  lemma {:induction false} OracleOrder(closes: seq<real>)
    ensures 1.0 <= LongOnly(closes) <= LongShort(closes)
  {
    if |closes| >= 2 {
      hide LongFactor, ShortFactor, Growth, Product;
      var n := |closes|;
      OracleOrder(closes[..n - 1]);
      LongGrowth(closes[n - 2], closes[n - 1], 0.0);
      ShortGrowth(closes[n - 2], closes[n - 1], 0.0);
      ProductUnits(1.0);
      TimesLeq(1.0, LongOnly(closes[..n - 1]), 1.0, LongFactor(closes[n - 2], closes[n - 1]));
      TimesLeq(LongOnly(closes[..n - 1]), LongShort(closes[..n - 1]),
               LongFactor(closes[n - 2], closes[n - 1]), ShortFactor(closes[n - 2], closes[n - 1]));
    }
  }

  /** No sequence of long exposures, chosen with any foresight, compounds past the long-only oracle. */
  lemma {:induction false} LongOnlyDominates(closes: seq<real>, exposure: seq<real>)
    requires |closes| >= 1 && |exposure| == |closes| - 1 && Within(exposure, 0.0)
    ensures 0.0 <= Compound(closes, exposure) <= LongOnly(closes)
  {
    if |closes| >= 2 {
      hide LongFactor, Growth, Product;
      var n := |closes|;
      LongOnlyDominates(closes[..n - 1], exposure[..n - 2]);
      LongGrowth(closes[n - 2], closes[n - 1], exposure[n - 2]);
      TimesLeq(Compound(closes[..n - 1], exposure[..n - 2]), LongOnly(closes[..n - 1]),
               Growth(closes[n - 2], closes[n - 1], exposure[n - 2]), LongFactor(closes[n - 2], closes[n - 1]));
    }
  }

  function Foresight(closes: seq<real>): (exposure: seq<real>)
    requires |closes| >= 1
    ensures |exposure| == |closes| - 1 && Within(exposure, 0.0)
  {
    seq(|closes| - 1, i requires 0 <= i < |closes| - 1 => if LongFactor(closes[i], closes[i + 1]) > 1.0 then 1.0 else 0.0)
  }

  /** The long-only oracle is attained: fully invested before every rise, out before every fall. */
  lemma {:induction false} LongOnlyAttained(closes: seq<real>)
    requires |closes| >= 1
    ensures Compound(closes, Foresight(closes)) == LongOnly(closes)
  {
    if |closes| >= 2 {
      var n := |closes|;
      LongOnlyAttained(closes[..n - 1]);
      assert Foresight(closes)[..n - 2] == Foresight(closes[..n - 1]);
      var a, b, e := closes[n - 2], closes[n - 1], Foresight(closes)[n - 2];
      assert Growth(a, b, e) == LongFactor(a, b);
    }
  }

  /** Some usable pair of closes falls. */
  predicate Falls(closes: seq<real>) {
    exists i :: 0 < i < |closes| && Usable(closes[i - 1], closes[i]) && closes[i] < closes[i - 1]
  }

  lemma FallsNext(closes: seq<real>)
    requires |closes| >= 2
    ensures var n := |closes|;
      Falls(closes)
      <==> Falls(closes[..n - 1]) || (Usable(closes[n - 2], closes[n - 1]) && closes[n - 1] < closes[n - 2])
  {
    var n := |closes|;
    var front := closes[..n - 1];
    if i :| 0 < i < |front| && Usable(front[i - 1], front[i]) && front[i] < front[i - 1] {
      assert Usable(closes[i - 1], closes[i]) && closes[i] < closes[i - 1];
    }
    if i :| 0 < i < n && Usable(closes[i - 1], closes[i]) && closes[i] < closes[i - 1] {
      assert i < n - 1 ==> Usable(front[i - 1], front[i]) && front[i] < front[i - 1];
    }
  }

  /** No sequence of exposures between full short and full long exceeds the long/short oracle in
      absolute value, and over a falling series none even reaches it. */
  lemma {:induction false} LongShortDominates(closes: seq<real>, exposure: seq<real>)
    requires |closes| >= 1 && |exposure| == |closes| - 1 && Within(exposure, -1.0)
    ensures Abs(Compound(closes, exposure)) <= LongShort(closes)
    ensures Falls(closes) ==> Abs(Compound(closes, exposure)) < LongShort(closes)
  {
    if |closes| >= 2 {
      hide LongFactor, ShortFactor, Growth, Product, Falls, Usable, Within;
      var n := |closes|;
      var a, b, e := closes[n - 2], closes[n - 1], exposure[n - 2];
      var before := Compound(closes[..n - 1], exposure[..n - 2]);
      LongShortDominates(closes[..n - 1], exposure[..n - 2]);
      ShortGrowth(a, b, e);
      LongGrowth(a, b, 0.0);
      FallsNext(closes);
      OracleOrder(closes[..n - 1]);
      AbsTimes(before, Growth(a, b, e));
      TimesLeq(Abs(before), LongShort(closes[..n - 1]), Abs(Growth(a, b, e)), ShortFactor(a, b));
    } else {
      assert !Falls(closes);
    }
  }

  /** The long/short figure is attainable exactly when no usable bar falls: its reciprocal is not
      what a short position earns. */
  lemma LongShortAttainedIff(closes: seq<real>)
    requires |closes| >= 1
    ensures (exists exposure :: |exposure| == |closes| - 1 && Within(exposure, -1.0)
                                && Compound(closes, exposure) == LongShort(closes))
      <==> !Falls(closes)
  {
    if !Falls(closes) {
      LongOnlyAttained(closes);
      NoFallSameOracle(closes);
      assert Within(Foresight(closes), -1.0);
    }
    forall exposure | |exposure| == |closes| - 1 && Within(exposure, -1.0)
      ensures Falls(closes) ==> Compound(closes, exposure) != LongShort(closes)
    {
      LongShortDominates(closes, exposure);
    }
  }

  /** Two closes, one falling by half: the long/short figure doubles the stake, and no exposure gets
      there. */
  lemma FallingPairIsNotAttained(exposure: seq<real>)
    requires |exposure| == 1 && Within(exposure, -1.0)
    ensures LongShort([2.0, 1.0]) == 2.0
    ensures Compound([2.0, 1.0], exposure) <= 1.5
  {
    var closes := [2.0, 1.0];
    assert closes[..1] == [2.0] && exposure[..0] == [];
    assert LongShort([2.0]) == 1.0 && Compound([2.0], []) == 1.0;
    assert Quotient(1.0, 2.0) == 0.5 && Quotient(1.0, 0.5) == 2.0;
    assert ShortFactor(2.0, 1.0) == 2.0;
    assert Growth(2.0, 1.0, exposure[0]) == 1.0 - 0.5 * exposure[0];
  }

  lemma {:induction false} NoFallSameOracle(closes: seq<real>)
    requires !Falls(closes)
    ensures LongOnly(closes) == LongShort(closes)
  {
    if |closes| >= 2 {
      FallsNext(closes);
      NoFallSameOracle(closes[..|closes| - 1]);
      var a, b := closes[|closes| - 2], closes[|closes| - 1];
      if Usable(a, b) {
        RatioOrder(a, b);
      }
      assert LongFactor(a, b) == ShortFactor(a, b);
    }
  }

  // ------------------------------------------------------------- capture ratio

  function CaptureRatio(strategyFinal: real, oracleFinal: real, initial: real): real
    requires initial > 0.0
  {
    var oracleReturn := Quotient(oracleFinal, initial) - 1.0;
    if oracleReturn == 0.0 then 0.0 else Quotient(Quotient(strategyFinal, initial) - 1.0, oracleReturn)
  }

  /** A long-only strategy captures at most everything. */
  lemma CaptureAtMostOne(closes: seq<real>, exposure: seq<real>, initial: real)
    requires initial > 0.0 && |closes| >= 1 && |exposure| == |closes| - 1 && Within(exposure, 0.0)
    ensures CaptureRatio(Product(initial, Compound(closes, exposure)), Product(initial, LongOnly(closes)), initial) <= 1.0
  {
    hide Compound, LongOnly, LongShort, Within;
    LongOnlyDominates(closes, exposure);
    OracleOrder(closes);
    CaptureBound(Compound(closes, exposure), LongOnly(closes), initial);
  }

  lemma CaptureBound(s: real, o: real, initial: real)
    requires initial > 0.0 && s <= o && 1.0 <= o
    ensures CaptureRatio(Product(initial, s), Product(initial, o), initial) <= 1.0
  {
    hide Product, Quotient;
    CancelFront(initial, s);
    CancelFront(initial, o);
    if o > 1.0 {
      QuotientOrder(s - 1.0, o - 1.0, 1.0);
      ProductUnits(o - 1.0);
    }
  }

  /** Captured times the oracle's gain is the strategy's gain; nothing is captured of no gain. */
  lemma CaptureTimesGain(strategyFinal: real, oracleFinal: real, initial: real)
    requires initial > 0.0
    ensures var captured := CaptureRatio(strategyFinal, oracleFinal, initial);
      if oracleFinal == initial then captured == 0.0
      else Product(captured, oracleFinal - initial) == strategyFinal - initial
  {
    hide Product, Quotient;
    var s, o := Quotient(strategyFinal, initial), Quotient(oracleFinal, initial);
    QuotientTimes(strategyFinal, initial);
    QuotientTimes(oracleFinal, initial);
    ProductUnits(initial);
    ProductDistributes(1.0, s, initial);
    ProductDistributes(1.0, o, initial);
    ProductSign(o - 1.0, initial);
    ProductSign(1.0 - o, initial);
    ProductNegates(o - 1.0, initial);
    if oracleFinal != initial {
      var captured := Quotient(s - 1.0, o - 1.0);
      QuotientTimes(s - 1.0, o - 1.0);
      ProductRegroups(captured, o - 1.0, initial);
    }
  }

  lemma ProductRegroups(x: real, y: real, z: real)
    ensures Product(x, Product(y, z)) == Product(Product(x, y), z)
  {
  }

  // ------------------------------------------------------------- units

  function Rescaled(closes: seq<real>, c: real): (cs: seq<real>)
    ensures |cs| == |closes| && forall i :: 0 <= i < |cs| ==> cs[i] == Product(c, closes[i])
  {
    seq(|closes|, i requires 0 <= i < |closes| => Product(c, closes[i]))
  }

  lemma RescaledRatio(a: real, b: real, c: real)
    requires c > 0.0
    ensures Usable(Product(c, a), Product(c, b)) <==> Usable(a, b)
    ensures Usable(a, b) ==> Quotient(Product(c, b), Product(c, a)) == Quotient(b, a)
  {
    Reals.ProductSign(a, c);
    Reals.ProductSign(b, c);
    if Usable(a, b) {
      var q := b / a;
      assert q * a == b;
      assert (c * a) * q == c * b;
    }
  }

  lemma RescaledFactors(a: real, b: real, c: real)
    requires c > 0.0
    ensures LongFactor(Product(c, a), Product(c, b)) == LongFactor(a, b)
    ensures ShortFactor(Product(c, a), Product(c, b)) == ShortFactor(a, b)
  {
    hide Product, Quotient;
    RescaledRatio(a, b, c);
  }

  /** Quoting prices in another unit changes neither oracle figure. */
  lemma {:induction false} OracleIgnoresUnits(closes: seq<real>, c: real)
    requires c > 0.0
    ensures LongOnly(Rescaled(closes, c)) == LongOnly(closes)
    ensures LongShort(Rescaled(closes, c)) == LongShort(closes)
  {
    if |closes| >= 2 {
      hide Product, LongFactor, ShortFactor;
      var n := |closes|;
      assert Rescaled(closes, c)[..n - 1] == Rescaled(closes[..n - 1], c);
      OracleIgnoresUnits(closes[..n - 1], c);
      RescaledFactors(closes[n - 2], closes[n - 1], c);
    }
  }

  // ------------------------------------------------------------- there and back

  function Backward(closes: seq<real>): (cs: seq<real>)
    ensures |cs| == |closes|
    ensures closes != [] ==> cs[0] == closes[|closes| - 1]
  {
    if closes == [] then [] else [closes[|closes| - 1]] + Backward(closes[..|closes| - 1])
  }

  lemma {:induction false} LongOnlyCons(a: real, closes: seq<real>)
    requires closes != []
    ensures LongOnly([a] + closes) == Product(LongFactor(a, closes[0]), LongOnly(closes))
  {
    hide Product, LongFactor;
    var n := |closes| - 1;
    assert ([a] + closes)[..n + 1] == [a] + closes[..n];
    if n == 0 {
      assert LongOnly([a] + closes[..0]) == 1.0;
      ProductUnits(LongFactor(a, closes[0]));
    } else {
      LongOnlyCons(a, closes[..n]);
      ProductRegroups(LongFactor(a, closes[0]), LongOnly(closes[..n]), LongFactor(closes[n - 1], closes[n]));
    }
  }

  lemma ShortIsBothWays(a: real, b: real)
    ensures ShortFactor(a, b) == Product(LongFactor(a, b), LongFactor(b, a))
  {
    if Usable(a, b) {
      var r := Quotient(b, a);
      RatioPositive(a, b);
      assert Quotient(a, b) == 1.0 / r by {
        assert (1.0 / r) * b == a by {
          assert r * a == b;
          assert (1.0 / r) * r == 1.0;
          assert (1.0 / r) * (r * a) == ((1.0 / r) * r) * a;
        }
      }
      RatioOrder(b, a);
      RatioOrder(a, b);
    }
  }

  lemma PairUp(w: real, x: real, y: real, z: real)
    ensures Product(Product(w, x), Product(y, z)) == Product(Product(w, y), Product(z, x))
  {
    assert (w * x) * (y * z) == (w * y) * (z * x);
  }

  /** The long/short figure is the long-only figure of the closes times that of the same closes run
      backward. */
  lemma {:induction false} LongShortIsBothWays(closes: seq<real>)
    ensures LongShort(closes) == Product(LongOnly(closes), LongOnly(Backward(closes)))
  {
    hide Product, LongFactor, ShortFactor;
    if |closes| < 2 {
      ProductUnits(1.0);
    } else {
      var n := |closes| - 1;
      var front, a, b := closes[..n], closes[n - 1], closes[n];
      LongShortIsBothWays(front);
      ShortIsBothWays(a, b);
      LongOnlyCons(b, Backward(front));
      PairUp(LongOnly(front), LongOnly(Backward(front)), LongFactor(a, b), LongFactor(b, a));
    }
  }
}
