/** Average-cost accounting of the paper engine and the decomposition of equity into realized
    and unrealized profit (paper/engine.py `_update_cost_basis`, `_settle_fill`). */
module CostBasis {
  import opened Collections
  import opened Market

  /** 1e-12: a holding below this counts as flat when an average is chosen. */
  const DUST: real := 0.000000000001

  datatype Basis = Basis(qty: real, avg: real)

  const FLAT: Basis := Basis(0.0, 0.0)

  function BookValue(b: Basis): real {
    b.qty * b.avg
  }

  predicate Opens(b: Basis, delta: real) {
    Abs(b.qty) < DUST || (b.qty > 0.0) == (delta > 0.0)
  }

  /** Average entry price of two same-side holdings taken together. */
  function Blend(q: real, avg: real, d: real, price: real): real {
    var total := Abs(q) + Abs(d);
    if total != 0.0 then (Abs(q) * avg + Abs(d) * price) / total else price
  }

  /** Profit of closing part of a holding at `price`. */
  function Gain(closed: real, price: real, avg: real, long: bool): real {
    closed * (price - avg) * (if long then 1.0 else -1.0)
  }

  /** New basis and realized profit of one fill. */
  function BasisStep(b: Basis, delta: real, price: real): (Basis, real) {
    var newQty := b.qty + delta;
    if Opens(b, delta) then
      (Basis(newQty, Blend(b.qty, b.avg, delta, price)), 0.0)
    else
      var closed := if Abs(delta) < Abs(b.qty) then Abs(delta) else Abs(b.qty);
      var realized := Gain(closed, price, b.avg, b.qty > 0.0);
      var avg := if Abs(delta) > Abs(b.qty) then price
                 else if Abs(newQty) < DUST then 0.0
                 else b.avg;
      (Basis(newQty, avg), realized)
  }

  /** What the book value moves by beyond cash paid and profit taken: zero in exact books. */
  function Residual(b: Basis, delta: real, price: real): real {
    var (b', realized) := BasisStep(b, delta, price);
    BookValue(b') - BookValue(b) - Notional(delta, price) - realized
  }

  /** A dust holding is treated as flat by a fill on the other side of it. */
  predicate DustCrossed(b: Basis, delta: real) {
    b.qty != 0.0 && Abs(b.qty) < DUST && (b.qty > 0.0) != (delta > 0.0)
  }

  /** A reduction leaves a dust holding whose average is forgotten. */
  predicate DustLeft(b: Basis, delta: real) {
    !Opens(b, delta) && Abs(delta) <= Abs(b.qty) && b.qty + delta != 0.0 && Abs(b.qty + delta) < DUST
  }

  /** A fill on a flat holding or on its own side earns nothing and moves the average to the
      quantity-weighted price. */
  lemma GrowingEarnsNothing(b: Basis, delta: real, price: real)
    requires delta != 0.0 && (b.qty == 0.0 || (b.qty > 0.0 <==> delta > 0.0))
    ensures var (b', realized) := BasisStep(b, delta, price);
      && realized == 0.0
      && b'.avg * (Abs(b.qty) + Abs(delta)) == Abs(b.qty) * b.avg + Abs(delta) * price
  {
    hide Gain;
    var total := Abs(b.qty) + Abs(delta);
    assert ((Abs(b.qty) * b.avg + Abs(delta) * price) / total) * total == Abs(b.qty) * b.avg + Abs(delta) * price;
  }

  /** A fill against a holding of at least a trillionth earns the price gap on what it closes; what
      is left keeps its average, and a reversal starts afresh at its own price. */
  lemma ClosingEarnsTheGap(b: Basis, delta: real, price: real)
    requires 1000000000000.0 * Abs(b.qty) >= 1.0 && delta != 0.0 && (b.qty > 0.0 <==> delta < 0.0)
    ensures var (b', realized) := BasisStep(b, delta, price);
      var perUnit := if b.qty > 0.0 then price - b.avg else b.avg - price;
      if Abs(delta) > Abs(b.qty) then realized == Abs(b.qty) * perUnit && b'.avg == price
      else realized == Abs(delta) * perUnit
           && (1000000000000.0 * Abs(b'.qty) >= 1.0 ==> b'.avg == b.avg)
  {
    hide Blend;
    var closed := if Abs(delta) < Abs(b.qty) then Abs(delta) else Abs(b.qty);
    GainPerUnit(closed, price, b.avg);
  }

  lemma GainPerUnit(closed: real, price: real, avg: real)
    ensures Gain(closed, price, avg, true) == closed * (price - avg)
    ensures Gain(closed, price, avg, false) == closed * (avg - price)
  {
  }

  lemma ScaledExactly(b: Basis, delta: real, price: real)
    requires Opens(b, delta) && delta != 0.0 && !DustCrossed(b, delta)
    ensures Residual(b, delta, price) == 0.0
  {
    var total := Abs(b.qty) + Abs(delta);
    var avg := (Abs(b.qty) * b.avg + Abs(delta) * price) / total;
    assert avg * total == Abs(b.qty) * b.avg + Abs(delta) * price;
    if delta > 0.0 {
      assert b.qty >= 0.0 && b.qty + delta == total;
    } else {
      assert b.qty <= 0.0 && b.qty + delta == -total;
      assert (b.qty + delta) * avg == -(avg * total);
      assert b.qty * b.avg == -(Abs(b.qty) * b.avg);
      assert delta * price == -(Abs(delta) * price);
    }
  }

  /** Crossing dust misplaces twice the dust times the price gap, scaled by the fill. */
  lemma CrossedResidual(b: Basis, delta: real, price: real)
    requires DustCrossed(b, delta) && delta != 0.0
    ensures Residual(b, delta, price) * (Abs(b.qty) + Abs(delta))
         == 2.0 * b.qty * Abs(delta) * (price - b.avg)
  {
    var q, d := Abs(b.qty), Abs(delta);
    var total := q + d;
    var avg := (q * b.avg + d * price) / total;
    assert avg * total == q * b.avg + d * price;
    assert Residual(b, delta, price) == (b.qty + delta) * avg - b.qty * b.avg - delta * price;
    if b.qty > 0.0 {
      CrossAlgebra(q, d, b.avg, price, avg);
    } else {
      CrossAlgebra(q, d, b.avg, price, avg);
      assert (b.qty + delta) * avg == -((q - d) * avg);
      assert b.qty * b.avg == -(q * b.avg) && delta * price == -(-d * price);
      assert 2.0 * b.qty * d * (price - b.avg) == -(2.0 * q * d * (price - b.avg)) by {
        assert 2.0 * b.qty == -(2.0 * q);
      }
    }
  }

  lemma CrossAlgebra(q: real, d: real, a: real, p: real, avg: real)
    requires avg * (q + d) == q * a + d * p
    ensures ((q - d) * avg - q * a + d * p) * (q + d) == 2.0 * q * d * (p - a)
  {
    calc {
      ((q - d) * avg - q * a + d * p) * (q + d);
      (q - d) * (avg * (q + d)) - (q * a - d * p) * (q + d);
      (q - d) * (q * a + d * p) - (q * a - d * p) * (q + d);
      2.0 * q * d * (p - a);
    }
  }

  lemma ReversedExactly(b: Basis, delta: real, price: real)
    requires !Opens(b, delta) && Abs(delta) > Abs(b.qty)
    ensures Residual(b, delta, price) == 0.0
  {
    var (b', realized) := BasisStep(b, delta, price);
    assert b' == Basis(b.qty + delta, price);
    assert BookValue(b') == Notional(b.qty + delta, price) && BookValue(b) == Notional(b.qty, b.avg);
    NotionalAdds(b.qty, delta, price);
    hide Notional, BookValue;
  }

  lemma ReducedResidual(b: Basis, delta: real, price: real)
    requires !Opens(b, delta) && Abs(delta) <= Abs(b.qty)
    ensures Residual(b, delta, price) == if DustLeft(b, delta) then -Notional(b.qty + delta, b.avg) else 0.0
  {
    var (b', realized) := BasisStep(b, delta, price);
    assert realized == Abs(-delta) * (price - b.avg) * (if b.qty > 0.0 then 1.0 else -1.0);
    ReducedAlgebra(b, delta, price, b', realized);
  }

  lemma ReducedAlgebra(b: Basis, delta: real, price: real, b': Basis, realized: real)
    requires realized == Notional(-delta, price) - Notional(-delta, b.avg)
    requires b' == Basis(b.qty + delta, if Abs(b.qty + delta) < DUST then 0.0 else b.avg)
    ensures BookValue(b') - BookValue(b) - Notional(delta, price) - realized
         == if Abs(b.qty + delta) < DUST && b.qty + delta != 0.0 then -Notional(b.qty + delta, b.avg) else 0.0
  {
    hide Notional, BookValue;
    NotionalAdds(delta, 0.0, price);
    NotionalAdds(delta, 0.0, b.avg);
    NotionalAdds(b.qty, delta, b.avg);
    BookValueIsNotional(b);
    BookValueIsNotional(b');
    NotionalAtZero(b.qty + delta);
  }

  lemma BookValueIsNotional(b: Basis)
    ensures BookValue(b) == Notional(b.qty, b.avg)
  {
  }

  lemma NotionalAtZero(q: real)
    ensures Notional(q, 0.0) == 0.0
  {
  }

  /** Closing or reversing is exact except for the book value of the dust left behind. */
  lemma ClosedResidual(b: Basis, delta: real, price: real)
    requires !Opens(b, delta)
    ensures Residual(b, delta, price) == if DustLeft(b, delta) then -(b.qty + delta) * b.avg else 0.0
  {
    if Abs(delta) > Abs(b.qty) {
      ReversedExactly(b, delta, price);
    } else {
      ReducedResidual(b, delta, price);
    }
  }

  /** The books of one fill are exact if and only if no dust holding is crossed at another
      price than its average, and none is left with a non-zero average. */
  lemma ExactIff(b: Basis, delta: real, price: real)
    requires delta != 0.0
    ensures Residual(b, delta, price) == 0.0
      <==> (DustCrossed(b, delta) ==> price == b.avg) && (DustLeft(b, delta) ==> b.avg == 0.0)
  {
    if DustCrossed(b, delta) {
      CrossedResidual(b, delta, price);
      var total := Abs(b.qty) + Abs(delta);
      var k := 2.0 * b.qty * Abs(delta);
      assert k != 0.0;
      if price != b.avg {
      } else {
        assert k * (price - b.avg) == 0.0;
        if Residual(b, delta, price) != 0.0 {
        }
      }
    } else if Opens(b, delta) {
      ScaledExactly(b, delta, price);
    } else {
      ClosedResidual(b, delta, price);
      if DustLeft(b, delta) && b.avg != 0.0 {
      }
    }
  }

  ghost predicate PricedWithin(b: Basis, top: real) {
    0.0 <= b.avg <= top
  }

  /** Between non-negative prices at most `top`, one fill's residual is at most 2e-12 * top, and
      the average stays between the prices paid. */
  lemma ResidualIsSmall(b: Basis, delta: real, price: real, top: real)
    requires delta != 0.0 && 0.0 <= price <= top && PricedWithin(b, top)
    ensures Abs(Residual(b, delta, price)) <= 2.0 * DUST * top
    ensures PricedWithin(BasisStep(b, delta, price).0, top)
  {
    AverageStaysWithin(b, delta, price, top);
    if DustCrossed(b, delta) {
      CrossedSmall(b, delta, price, top);
    } else if Opens(b, delta) {
      ScaledExactly(b, delta, price);
    } else {
      ClosedSmall(b, delta, price, top);
    }
  }

  lemma CrossedSmall(b: Basis, delta: real, price: real, top: real)
    requires DustCrossed(b, delta) && delta != 0.0 && 0.0 <= price <= top && PricedWithin(b, top)
    ensures Abs(Residual(b, delta, price)) <= 2.0 * DUST * top
  {
    hide Residual;
    CrossedResidual(b, delta, price);
    CrossedIsSmall(Abs(b.qty), Abs(delta), price - b.avg, Residual(b, delta, price), b.qty, top);
  }

  lemma ClosedSmall(b: Basis, delta: real, price: real, top: real)
    requires !Opens(b, delta) && 0.0 <= top && PricedWithin(b, top)
    ensures Abs(Residual(b, delta, price)) <= 2.0 * DUST * top
  {
    hide Residual;
    ClosedResidual(b, delta, price);
    if DustLeft(b, delta) {
      AbsProduct(-(b.qty + delta), b.avg, DUST, top);
    }
  }

  lemma AbsProduct(x: real, y: real, xTop: real, yTop: real)
    requires Abs(x) <= xTop && Abs(y) <= yTop
    ensures Abs(x * y) <= xTop * yTop
  {
    assert Abs(x) * Abs(y) <= xTop * Abs(y);
    assert xTop * Abs(y) <= xTop * yTop;
    assert Abs(x * y) == Abs(x) * Abs(y);
  }

  lemma CrossedIsSmall(q: real, d: real, gap: real, residual: real, signedQty: real, top: real)
    requires 0.0 < q < DUST && 0.0 < d && Abs(signedQty) == q && Abs(gap) <= top
    requires residual * (q + d) == 2.0 * signedQty * d * gap
    ensures Abs(residual) <= 2.0 * DUST * top
  {
    AbsProductExact(2.0 * signedQty, d);
    AbsProduct(2.0 * signedQty * d, gap, 2.0 * q * d, top);
    AbsProductExact(residual, q + d);
    SmallQuotient(Abs(residual), q, d, top);
  }

  lemma SmallQuotient(r: real, q: real, d: real, top: real)
    requires 0.0 < q < DUST && 0.0 < d && 0.0 <= r && 0.0 <= top
    requires r * (q + d) <= 2.0 * q * d * top
    ensures r <= 2.0 * DUST * top
  {
    var bound := 2.0 * q * top;
    assert 2.0 * q * d * top == bound * d;
    assert r * q >= 0.0;
    assert r * (q + d) == r * q + r * d;
    CancelLeq(r, bound, d);
    ScaleLeq(2.0 * q, 2.0 * DUST, top);
  }

  lemma AbsProductExact(x: real, y: real)
    requires y > 0.0
    ensures Abs(x * y) == Abs(x) * y
  {
    if x < 0.0 {
      assert x * y < 0.0;
    } else {
      assert x * y >= 0.0;
    }
  }

  lemma CancelLeq(x: real, y: real, d: real)
    requires d > 0.0
    ensures x * d <= y * d ==> x <= y
  {
    if x > y {
      assert (x - y) * d > 0.0;
    }
  }

  lemma ScaleLeq(x: real, y: real, d: real)
    requires d >= 0.0 && x <= y
    ensures x * d <= y * d
  {
    assert (y - x) * d >= 0.0;
  }

  lemma AverageStaysWithin(b: Basis, delta: real, price: real, top: real)
    requires delta != 0.0 && 0.0 <= price <= top && PricedWithin(b, top)
    ensures PricedWithin(BasisStep(b, delta, price).0, top)
  {
    hide Gain, Blend;
    BlendWithin(b.qty, b.avg, delta, price, top);
  }

  lemma BlendWithin(q: real, avg: real, d: real, price: real, top: real)
    requires d != 0.0 && 0.0 <= price <= top && 0.0 <= avg <= top
    ensures 0.0 <= Blend(q, avg, d, price) <= top
  {
    WeightedWithin(Abs(q), Abs(d), avg, price, top);
  }

  lemma WeightedWithin(u: real, v: real, x: real, y: real, top: real)
    requires 0.0 <= u && 0.0 < v && 0.0 <= x <= top && 0.0 <= y <= top
    ensures 0.0 <= (u * x + v * y) / (u + v) <= top
  {
    var t := u + v;
    var r := (u * x + v * y) / t;
    assert r * t == u * x + v * y;
    ScaleLeq(0.0, u, x);
    ScaleLeq(0.0, v, y);
    ScaleLeq(x, top, u);
    ScaleLeq(y, top, v);
    assert 0.0 * t <= r * t;
    CancelLeq(0.0, r, t);
    assert r * t <= top * t;
    CancelLeq(r, top, t);
  }
}
