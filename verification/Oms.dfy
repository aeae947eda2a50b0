/** Order manager: positions, cash, equity marks and target -> delta orders (mre/oms.py). */
module Oms {
  import opened Collections
  import opened Market

  /** 1e-12: a smaller difference from the target queues no order. */
  const MIN_DELTA_QTY: real := 0.000000000001

  datatype Account = Account(
    cash: real, book: Book, curve: seq<EquityPoint>, fills: seq<Fill>, orderSeq: nat)

  function NewAccount(initialEquity: real): Account {
    Account(initialEquity, Book([], map[]), [], [], 0)
  }

  function Adjust(book: Book, symbol: string, delta: real): Book {
    Book(if symbol in book.qty then book.symbols else book.symbols + [symbol],
         book.qty[symbol := QtyOf(book, symbol) + delta])
  }

  function ApplyFill(a: Account, f: Fill): Account {
    var signed := Signed(f.side, f.quantity);
    a.(book := Adjust(a.book, f.symbol, signed),
       cash := a.cash - Notional(signed, f.price) - f.fee,
       fills := a.fills + [f])
  }

  function ApplyFills(a: Account, fills: seq<Fill>): Account
    decreases |fills|
  {
    if fills == [] then a else ApplyFills(ApplyFill(a, fills[0]), fills[1..])
  }

  function Equity(a: Account, marks: map<string, real>): real {
    a.cash + HeldValue(a.book.symbols, a.book.qty, marks)
  }

  function RecordEquity(a: Account, time: int, marks: map<string, real>): Account {
    a.(curve := a.curve + [EquityPoint(time, Equity(a, marks))])
  }

  function TakeSnapshot(a: Account, marks: map<string, real>): Snapshot {
    Snapshot(a.cash, a.book, marks)
  }

  /** The order that moves `current` to the target, when the gap is not dust. */
  function DeltaOrder(book: Book, t: Target, submitTime: int, orderSeq: nat): Option<Order> {
    var delta := t.qty - QtyOf(book, t.symbol);
    if Abs(delta) < MIN_DELTA_QTY then None
    else Some(Order(OrderId(t.symbol, submitTime, orderSeq + 1), t.symbol,
                    if delta > 0.0 then Buy else Sell, Abs(delta), submitTime))
  }

  function DeltaOrders(book: Book, targets: seq<Target>, submitTime: int, orderSeq: nat): seq<Order> {
    if targets == [] then []
    else
      match DeltaOrder(book, targets[0], submitTime, orderSeq)
      case None => DeltaOrders(book, targets[1..], submitTime, orderSeq)
      case Some(o) => [o] + DeltaOrders(book, targets[1..], submitTime, orderSeq + 1)
  }

  lemma DeltaOrdersNext(book: Book, targets: seq<Target>, i: nat, submitTime: int, orderSeq: nat)
    requires i < |targets|
    ensures DeltaOrders(book, targets[i..], submitTime, orderSeq)
      == match DeltaOrder(book, targets[i], submitTime, orderSeq)
         case None => DeltaOrders(book, targets[i + 1..], submitTime, orderSeq)
         case Some(o) => [o] + DeltaOrders(book, targets[i + 1..], submitTime, orderSeq + 1)
  {
    hide DeltaOrder;
    assert targets[i..][1..] == targets[i + 1..];
  }

  lemma DeltaOrderOf(book: Book, t: Target, current: real, submitTime: int, orderSeq: nat)
    requires current == QtyOf(book, t.symbol)
    ensures DeltaOrder(book, t, submitTime, orderSeq)
      == if Abs(t.qty - current) < MIN_DELTA_QTY then None
         else Some(Order(OrderId(t.symbol, submitTime, orderSeq + 1), t.symbol,
                         if t.qty - current > 0.0 then Buy else Sell, Abs(t.qty - current), submitTime))
  {
  }

  lemma NoMoreDeltaOrders(book: Book, targets: seq<Target>, submitTime: int, orderSeq: nat)
    requires targets == []
    ensures DeltaOrders(book, targets, submitTime, orderSeq) == []
  {
  }

  lemma AdjustKeepsBookOk(book: Book, symbol: string, delta: real)
    requires BookOk(book)
    ensures BookOk(Adjust(book, symbol, delta))
    ensures forall s :: QtyOf(Adjust(book, symbol, delta), s)
                        == QtyOf(book, s) + (if s == symbol then delta else 0.0)
  {
  }

  /** An order moves the holding exactly onto its target; without one the holding is there
      already, up to dust. */
  lemma DeltaOrderReachesTarget(book: Book, t: Target, submitTime: int, orderSeq: nat)
    ensures match DeltaOrder(book, t, submitTime, orderSeq)
      case Some(o) =>
        && o.symbol == t.symbol && o.quantity >= MIN_DELTA_QTY
        && QtyOf(book, t.symbol) + Signed(o.side, o.quantity) == t.qty
      case None => Abs(t.qty - QtyOf(book, t.symbol)) < MIN_DELTA_QTY
  {
  }

  /** An order is placed exactly for a gap of at least a trillionth, up for a buy and down for a
      sell, under the next number. */
  lemma GapQueuesIff(book: Book, t: Target, submitTime: int, orderSeq: nat)
    ensures var gap := t.qty - QtyOf(book, t.symbol);
      match DeltaOrder(book, t, submitTime, orderSeq)
      case Some(o) =>
        && 1000000000000.0 * Abs(gap) >= 1.0 && (o.side.Buy? <==> gap > 0.0)
        && o.id == OrderId(o.symbol, o.submitTime, orderSeq + 1) && o.submitTime == submitTime
      case None => 1000000000000.0 * Abs(gap) < 1.0
  {
  }

  class OrderManager {
    const initialEquity: real
    var cash: real
    var symbols: seq<string>
    var qty: map<string, real>
    var equityHistory: seq<EquityPoint>
    var fillHistory: seq<Fill>
    var orderSeq: nat

    ghost predicate Valid()
      reads this
    {
      BookOk(Book(symbols, qty))
    }

    function Value(): Account
      reads this
    {
      Account(cash, Book(symbols, qty), equityHistory, fillHistory, orderSeq)
    }

    constructor (initialEquity: real)
      requires initialEquity > 0.0
      ensures Valid() && Value() == NewAccount(initialEquity) && this.initialEquity == initialEquity
    {
      this.initialEquity := initialEquity;
      cash := initialEquity;
      symbols, qty := [], map[];
      equityHistory, fillHistory, orderSeq := [], [], 0;
    }

    method EquityAt(marks: map<string, real>) returns (e: real)
      requires Valid()
      ensures e == Equity(Value(), marks)
    {
      e := cash;
      for i := 0 to |symbols|
        invariant e == cash + HeldValue(symbols[..i], qty, marks)
      {
        var symbol := symbols[i];
        assert symbols[..i + 1][..i] == symbols[..i];
        if qty[symbol] != 0.0 && symbol in marks {
          e := e + qty[symbol] * marks[symbol];
        }
      }
      assert symbols[..|symbols|] == symbols;
    }

    /** What a strategy is handed: worth what the manager records at the same marks. */
    method SnapshotNow(marks: map<string, real>) returns (s: Snapshot)
      ensures s == TakeSnapshot(Value(), marks)
      ensures SnapshotEquity(s) == Equity(Value(), marks)
    {
      s := Snapshot(cash, Book(symbols, qty), marks);
    }

    method Apply(fill: Fill)
      requires Valid()
      modifies this
      ensures Valid() && Value() == ApplyFill(old(Value()), fill)
    {
      var signed := Signed(fill.side, fill.quantity);
      if fill.symbol !in qty {
        symbols, qty := symbols + [fill.symbol], qty[fill.symbol := 0.0];
      }
      qty := qty[fill.symbol := qty[fill.symbol] + signed];
      cash := cash - signed * fill.price;
      cash := cash - fill.fee;
      fillHistory := fillHistory + [fill];
      assert qty == old(qty)[fill.symbol := QtyOf(old(Book(symbols, qty)), fill.symbol) + signed];
    }

    method Record(time: int, marks: map<string, real>)
      requires Valid()
      modifies this
      ensures Valid() && Value() == RecordEquity(old(Value()), time, marks)
    {
      var e := EquityAt(marks);
      equityHistory := equityHistory + [EquityPoint(time, e)];
    }

    method ComputeDeltaOrders(targets: seq<Target>, submitTime: int) returns (orders: seq<Order>)
      requires Valid()
      modifies this
      ensures orders == DeltaOrders(old(Value()).book, targets, submitTime, old(orderSeq))
      ensures Valid() && Value() == old(Value()).(orderSeq := old(orderSeq) + |orders|)
    {
      hide DeltaOrders, DeltaOrder, BookOk;
      orders := [];
      ghost var book := Book(symbols, qty);
      assert targets[0..] == targets;
      for i := 0 to |targets|
        invariant Valid() && Value() == old(Value()).(orderSeq := old(orderSeq) + |orders|)
        invariant orders + DeltaOrders(book, targets[i..], submitTime, orderSeq)
                  == DeltaOrders(book, targets, submitTime, old(orderSeq))
      {
        var t := targets[i];
        DeltaOrdersNext(book, targets, i, submitTime, orderSeq);
        var current := if t.symbol in qty then qty[t.symbol] else 0.0;
        var delta := t.qty - current;
        DeltaOrderOf(book, t, current, submitTime, orderSeq);
        if Abs(delta) >= MIN_DELTA_QTY {
          var side := if delta > 0.0 then Buy else Sell;
          orderSeq := orderSeq + 1;
          var order := Order(OrderId(t.symbol, submitTime, orderSeq), t.symbol, side, Abs(delta), submitTime);
          AppendAssociates(orders, [order], DeltaOrders(book, targets[i + 1..], submitTime, orderSeq));
          orders := orders + [order];
        }
      }
      NoMoreDeltaOrders(book, targets[|targets|..], submitTime, orderSeq);
    }
  }
}
