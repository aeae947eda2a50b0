/** Cash, positions, cost basis and realized profit move together: the equity of any sequence of
    fills splits into realized and unrealized profit (paper/engine.py, mre/oms.py). */
module Accounting {
  import opened Collections
  import opened Market
  import opened Oms
  import opened CostBasis

  datatype Books = Books(account: Account, basis: map<string, Basis>, realized: real)

  function BasisOf(basis: map<string, Basis>, s: string): Basis {
    if s in basis then basis[s] else FLAT
  }

  function NewBooks(initialEquity: real): Books {
    Books(NewAccount(initialEquity), map[], 0.0)
  }

  /** One settled fill: average cost first, net of the fee, then the account. */
  function Settle(k: Books, f: Fill): Books {
    var (b, profit) := BasisStep(BasisOf(k.basis, f.symbol), Signed(f.side, f.quantity), f.price);
    Books(ApplyFill(k.account, f), k.basis[f.symbol := b], k.realized + (profit - f.fee))
  }

  function SettleAll(k: Books, fills: seq<Fill>): Books
    decreases |fills|
  {
    if fills == [] then k else SettleAll(Settle(k, fills[0]), fills[1..])
  }

  ghost predicate BooksOk(k: Books) {
    && BookOk(k.account.book)
    && (forall s :: BasisOf(k.basis, s).qty == QtyOf(k.account.book, s))
  }

  /** Book value of the holdings: signed quantity times average price. */
  function BookCost(symbols: seq<string>, basis: map<string, Basis>): real {
    if symbols == [] then 0.0
    else
      var b := BasisOf(basis, symbols[|symbols| - 1]);
      BookCost(symbols[..|symbols| - 1], basis) + BookValue(b)
  }

  /** Open profit of the holdings against the marks. */
  function Unrealized(symbols: seq<string>, basis: map<string, Basis>, marks: map<string, real>): real {
    if symbols == [] then 0.0
    else
      var s := symbols[|symbols| - 1];
      var b := BasisOf(basis, s);
      Unrealized(symbols[..|symbols| - 1], basis, marks) + OpenProfit(b, marks, s)
  }

  function OpenProfit(b: Basis, marks: map<string, real>, s: string): real {
    if b.qty == 0.0 || s !in marks then 0.0 else b.qty * (marks[s] - b.avg)
  }

  predicate MarksCover(book: Book, marks: map<string, real>) {
    forall s :: s in book.qty && book.qty[s] != 0.0 ==> s in marks
  }

  /** Residuals of the fills, summed. */
  function Drift(k: Books, fills: seq<Fill>): real
    decreases |fills|
  {
    if fills == [] then 0.0
    else
      var f := fills[0];
      Residual(BasisOf(k.basis, f.symbol), Signed(f.side, f.quantity), f.price) + Drift(Settle(k, f), fills[1..])
  }

  // ------------------------------------------------------------- sums over holdings

  lemma {:induction false} CostElsewhere(symbols: seq<string>, basis: map<string, Basis>, s: string, b: Basis)
    requires s !in symbols
    ensures BookCost(symbols, basis[s := b]) == BookCost(symbols, basis)
  {
    if symbols != [] {
      CostElsewhere(symbols[..|symbols| - 1], basis, s, b);
    }
  }

  lemma {:induction false} CostUpdate(symbols: seq<string>, basis: map<string, Basis>, s: string, b: Basis)
    requires Distinct(symbols) && s in symbols
    ensures BookCost(symbols, basis[s := b])
         == BookCost(symbols, basis) + BookValue(b) - BookValue(BasisOf(basis, s))
  {
    hide BookValue;
    var n := |symbols| - 1;
    if symbols[n] == s {
      CostElsewhere(symbols[..n], basis, s, b);
    } else {
      assert s in symbols[..n] by {
        var i :| 0 <= i < |symbols| && symbols[i] == s;
        assert symbols[..n][i] == s;
      }
      CostUpdate(symbols[..n], basis, s, b);
    }
  }

  lemma CostAfterFill(book: Book, basis: map<string, Basis>, s: string, delta: real, b: Basis)
    requires BookOk(book) && (s !in book.qty ==> BasisOf(basis, s).qty == 0.0)
    ensures BookCost(Adjust(book, s, delta).symbols, basis[s := b])
         == BookCost(book.symbols, basis) + BookValue(b) - BookValue(BasisOf(basis, s))
  {
    hide BookValue, BookCost;
    if s in book.qty {
      CostUpdate(book.symbols, basis, s, b);
    } else {
      CostNewSymbol(book.symbols, basis, s, b);
    }
  }

  lemma CostNewSymbol(symbols: seq<string>, basis: map<string, Basis>, s: string, b: Basis)
    requires s !in symbols && BasisOf(basis, s).qty == 0.0
    ensures BookCost(symbols + [s], basis[s := b])
         == BookCost(symbols, basis) + BookValue(b) - BookValue(BasisOf(basis, s))
  {
    hide BookValue;
    assert (symbols + [s])[..|symbols|] == symbols;
    CostElsewhere(symbols, basis, s, b);
    FlatHasNoValue(BasisOf(basis, s));
  }

  lemma FlatHasNoValue(b: Basis)
    requires b.qty == 0.0
    ensures BookValue(b) == 0.0
  {
  }

  lemma SettleKeepsBooksOk(k: Books, f: Fill)
    requires BooksOk(k)
    ensures BooksOk(Settle(k, f))
  {
    AdjustKeepsBookOk(k.account.book, f.symbol, Signed(f.side, f.quantity));
  }

  /** One fill moves cash plus book value less profit by exactly its residual. */
  lemma SettleBalances(k: Books, f: Fill)
    requires BooksOk(k)
    ensures var k' := Settle(k, f);
      k'.account.cash + BookCost(k'.account.book.symbols, k'.basis) - k'.realized
      == k.account.cash + BookCost(k.account.book.symbols, k.basis) - k.realized
         + Residual(BasisOf(k.basis, f.symbol), Signed(f.side, f.quantity), f.price)
  {
    var delta := Signed(f.side, f.quantity);
    hide BasisStep, BookValue, BookCost;
    var (b, profit) := BasisStep(BasisOf(k.basis, f.symbol), delta, f.price);
    CostAfterFill(k.account.book, k.basis, f.symbol, delta, b);
  }

  lemma {:induction false} AllBalances(k: Books, fills: seq<Fill>)
    requires BooksOk(k)
    ensures var k' := SettleAll(k, fills);
      && BooksOk(k')
      && k'.account.cash + BookCost(k'.account.book.symbols, k'.basis) - k'.realized
         == k.account.cash + BookCost(k.account.book.symbols, k.basis) - k.realized + Drift(k, fills)
    decreases |fills|
  {
    hide Residual, Settle, BookCost;
    if fills != [] {
      SettleKeepsBooksOk(k, fills[0]);
      SettleBalances(k, fills[0]);
      AllBalances(Settle(k, fills[0]), fills[1..]);
    }
  }

  lemma {:induction false} ValueIsCostPlusUnrealized(
      symbols: seq<string>, book: Book, basis: map<string, Basis>, marks: map<string, real>)
    requires forall s :: BasisOf(basis, s).qty == QtyOf(book, s)
    requires MarksCover(book, marks)
    ensures HeldValue(symbols, book.qty, marks) == BookCost(symbols, basis) + Unrealized(symbols, basis, marks)
  {
    if symbols != [] {
      hide BookValue, OpenProfit, HoldingValue;
      ValueIsCostPlusUnrealized(symbols[..|symbols| - 1], book, basis, marks);
      HoldingSplits(book, basis, marks, symbols[|symbols| - 1]);
    }
  }

  lemma HoldingSplits(book: Book, basis: map<string, Basis>, marks: map<string, real>, s: string)
    requires BasisOf(basis, s).qty == QtyOf(book, s)
    requires MarksCover(book, marks)
    ensures HoldingValue(book.qty, marks, s) == BookValue(BasisOf(basis, s)) + OpenProfit(BasisOf(basis, s), marks, s)
  {
    var b := BasisOf(basis, s);
    if b.qty != 0.0 {
      assert b.qty * (marks[s] - b.avg) == b.qty * marks[s] - b.qty * b.avg;
    } else {
      FlatHasNoValue(b);
    }
  }

  // ------------------------------------------------------------- the decomposition

  /** For every sequence of fills and any marks covering the holdings: profit is realized (net
      of fees) plus unrealized, up to the summed residuals. */
  lemma ProfitSplits(initialEquity: real, fills: seq<Fill>, marks: map<string, real>)
    requires MarksCover(SettleAll(NewBooks(initialEquity), fills).account.book, marks)
    ensures var k := SettleAll(NewBooks(initialEquity), fills);
      Equity(k.account, marks) - initialEquity
      == k.realized + Unrealized(k.account.book.symbols, k.basis, marks) + Drift(NewBooks(initialEquity), fills)
  {
    var k0 := NewBooks(initialEquity);
    AllBalances(k0, fills);
    var k := SettleAll(k0, fills);
    ValueIsCostPlusUnrealized(k.account.book.symbols, k.account.book, k.basis, marks);
  }

  /** No fill crosses a dust holding or leaves one. */
  predicate CleanRun(k: Books, fills: seq<Fill>)
    decreases |fills|
  {
    fills == [] ||
    (var b, delta := BasisOf(k.basis, fills[0].symbol), Signed(fills[0].side, fills[0].quantity);
     !DustCrossed(b, delta) && !DustLeft(b, delta) && CleanRun(Settle(k, fills[0]), fills[1..]))
  }

  predicate RealFills(fills: seq<Fill>) {
    forall f :: f in fills ==> f.quantity != 0.0
  }

  lemma {:induction false} CleanRunHasNoDrift(k: Books, fills: seq<Fill>)
    requires RealFills(fills) && CleanRun(k, fills)
    ensures Drift(k, fills) == 0.0
    decreases |fills|
  {
    if fills != [] {
      hide Residual, Settle;
      ExactIff(BasisOf(k.basis, fills[0].symbol), Signed(fills[0].side, fills[0].quantity), fills[0].price);
      CleanRunHasNoDrift(Settle(k, fills[0]), fills[1..]);
    }
  }

  /** 2e-12 times the highest price, per fill. */
  function DriftBound(top: real, n: nat): real {
    2.0 * DUST * top * n as real
  }

  ghost predicate AllPricedWithin(basis: map<string, Basis>, top: real) {
    forall s :: PricedWithin(BasisOf(basis, s), top)
  }

  lemma {:induction false} DriftIsSmall(k: Books, fills: seq<Fill>, top: real)
    requires RealFills(fills) && 0.0 <= top && AllPricedWithin(k.basis, top)
    requires forall f :: f in fills ==> 0.0 <= f.price <= top
    ensures Abs(Drift(k, fills)) <= DriftBound(top, |fills|)
    decreases |fills|
  {
    if fills != [] {
      hide Residual, BasisStep, DriftBound;
      var f := fills[0];
      ResidualIsSmall(BasisOf(k.basis, f.symbol), Signed(f.side, f.quantity), f.price, top);
      StillPriced(k.basis, f.symbol, BasisStep(BasisOf(k.basis, f.symbol), Signed(f.side, f.quantity), f.price).0, top);
      assert RealFills(fills[1..]);
      DriftIsSmall(Settle(k, f), fills[1..], top);
      DriftBoundNext(top, |fills[1..]|);
    } else {
      assert DriftBound(top, 0) == 0.0;
    }
  }

  lemma StillPriced(basis: map<string, Basis>, s: string, b: Basis, top: real)
    requires AllPricedWithin(basis, top) && PricedWithin(b, top)
    ensures AllPricedWithin(basis[s := b], top)
  {
    var after := basis[s := b];
    forall x ensures PricedWithin(BasisOf(after, x), top) {
      assert PricedWithin(BasisOf(basis, x), top);
    }
  }

  lemma DriftBoundNext(top: real, n: nat)
    ensures DriftBound(top, n + 1) == DriftBound(top, n) + 2.0 * DUST * top
  {
  }

  /** The split is exact while no holding falls below 1e-12 without being zero, and off by at
      most 2e-12 times the highest price per fill in any case. */
  lemma ProfitDecomposition(initialEquity: real, fills: seq<Fill>, marks: map<string, real>, top: real)
    requires RealFills(fills) && 0.0 <= top && forall f :: f in fills ==> 0.0 <= f.price <= top
    requires MarksCover(SettleAll(NewBooks(initialEquity), fills).account.book, marks)
    ensures var k := SettleAll(NewBooks(initialEquity), fills);
      var gap := Equity(k.account, marks) - initialEquity
                 - (k.realized + Unrealized(k.account.book.symbols, k.basis, marks));
      && Abs(gap) <= DriftBound(top, |fills|)
      && (CleanRun(NewBooks(initialEquity), fills) ==> gap == 0.0)
  {
    hide Drift, SettleAll, Equity, Unrealized;
    ProfitSplits(initialEquity, fills, marks);
    DriftIsSmall(NewBooks(initialEquity), fills, top);
    if CleanRun(NewBooks(initialEquity), fills) {
      CleanRunHasNoDrift(NewBooks(initialEquity), fills);
    }
  }

  /** Holdings that are zero or at least 1e-12 after every fill make a clean run. */
  predicate NoDustHoldings(k: Books, fills: seq<Fill>)
    decreases |fills|
  {
    fills == [] ||
    (var q := BasisOf(Settle(k, fills[0]).basis, fills[0].symbol).qty;
     (q == 0.0 || Abs(q) >= DUST) && NoDustHoldings(Settle(k, fills[0]), fills[1..]))
  }

  lemma {:induction false} NoDustIsClean(k: Books, fills: seq<Fill>)
    requires forall s :: var q := BasisOf(k.basis, s).qty; q == 0.0 || Abs(q) >= DUST
    requires NoDustHoldings(k, fills)
    ensures CleanRun(k, fills)
    decreases |fills|
  {
    if fills != [] {
      var k' := Settle(k, fills[0]);
      forall s ensures var q := BasisOf(k'.basis, s).qty; q == 0.0 || Abs(q) >= DUST {
        var q := BasisOf(k.basis, s).qty;
        assert q == 0.0 || Abs(q) >= DUST;
      }
      var q := BasisOf(k.basis, fills[0].symbol).qty;
      assert q == 0.0 || Abs(q) >= DUST;
      NoDustIsClean(k', fills[1..]);
    }
  }
}
