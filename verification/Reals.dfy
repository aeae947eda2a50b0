/** Products and quotients of reals as named functions, with the order facts the proofs need. A
    proof that hides `Product` and `Quotient` reasons about them through these lemmas alone. */
module Reals {

  function Product(x: real, y: real): real {
    x * y
  }

  function Quotient(x: real, y: real): real
    requires y != 0.0
  {
    x / y
  }

  lemma ProductSign(x: real, c: real)
    requires c > 0.0
    ensures Product(x, c) > 0.0 <==> x > 0.0
    ensures Product(x, c) < 0.0 <==> x < 0.0
  {
  }

  lemma ProductDistributes(x: real, y: real, c: real)
    ensures Product(y - x, c) == Product(y, c) - Product(x, c)
    ensures Product(x + y, c) == Product(x, c) + Product(y, c)
  {
  }

  lemma ProductCommutes(x: real, y: real)
    ensures Product(x, y) == Product(y, x)
  {
  }

  lemma ProductUnits(x: real)
    ensures Product(x, 1.0) == x && Product(1.0, x) == x
    ensures Product(x, 0.0) == 0.0 && Product(0.0, x) == 0.0
    ensures Product(-1.0, x) == -x && Product(x, -1.0) == -x
  {
  }

  lemma ProductNegates(x: real, y: real)
    ensures Product(x, -y) == -Product(x, y) && Product(-x, y) == -Product(x, y)
  {
  }

  /** Multiplying by a positive number keeps the order. */
  lemma Scale(x: real, y: real, c: real)
    requires c > 0.0
    ensures x < y <==> Product(x, c) < Product(y, c)
    ensures x <= y <==> Product(x, c) <= Product(y, c)
  {
    hide Product;
    ProductSign(y - x, c);
    ProductDistributes(x, y, c);
  }

  lemma ScaleWeak(x: real, y: real, c: real)
    requires x <= y && c >= 0.0
    ensures Product(x, c) <= Product(y, c)
  {
    hide Product;
    if c > 0.0 {
      Scale(x, y, c);
    } else {
      ProductUnits(x);
      ProductUnits(y);
    }
  }

  lemma ProductNonNegative(x: real, y: real)
    requires x >= 0.0 && y >= 0.0
    ensures Product(x, y) >= 0.0
  {
    hide Product;
    ScaleWeak(0.0, x, y);
    ProductUnits(y);
  }

  lemma SquareNonNegative(x: real)
    ensures Product(x, x) >= 0.0
    ensures x != 0.0 ==> Product(x, x) > 0.0
  {
    hide Product;
    ProductUnits(x);
    if x > 0.0 {
      ProductSign(x, x);
    } else if x < 0.0 {
      ProductSign(-x, -x);
      ProductNegates(x, -x);
      ProductNegates(x, x);
    }
  }

  lemma QuotientTimes(x: real, y: real)
    requires y != 0.0
    ensures Product(Quotient(x, y), y) == x
  {
  }

  /** Comparing a quotient with a bound is comparing the dividend with the scaled bound. */
  lemma QuotientOrder(x: real, y: real, bound: real)
    requires y > 0.0
    ensures Quotient(x, y) <= bound <==> x <= Product(bound, y)
    ensures Quotient(x, y) < bound <==> x < Product(bound, y)
    ensures bound < Quotient(x, y) <==> Product(bound, y) < x
  {
    hide Product, Quotient;
    QuotientTimes(x, y);
    Scale(Quotient(x, y), bound, y);
    Scale(bound, Quotient(x, y), y);
  }

  lemma CancelFront(a: real, b: real)
    requires a != 0.0
    ensures Quotient(Product(a, b), a) == b
  {
  }

  /** A fraction of a move is no larger than the move. */
  lemma FractionBounds(e: real, m: real)
    requires -1.0 <= e <= 1.0
    ensures m >= 0.0 ==> -m <= Product(e, m) <= m && (e >= 0.0 ==> 0.0 <= Product(e, m))
    ensures m <= 0.0 ==> m <= Product(e, m) <= -m && (e >= 0.0 ==> Product(e, m) <= 0.0)
  {
    hide Product;
    var d := if m >= 0.0 then m else -m;
    ProductUnits(d);
    ScaleWeak(-1.0, e, d);
    ScaleWeak(e, 1.0, d);
    if e >= 0.0 {
      ScaleWeak(0.0, e, d);
    }
    ProductNegates(e, m);
  }

  lemma ProductOfGaps(r: real)
    ensures Product(2.0 - r, r) == 1.0 - Product(1.0 - r, 1.0 - r)
  {
    assert Product(1.0 - r, 1.0 - r) == 1.0 - 2.0 * r + r * r;
    assert Product(2.0 - r, r) == 2.0 * r - r * r;
  }
}
