/** Value types of the market replay engine (mre/types.py, data/schemas.py). */
module Market {
  import opened Collections

  datatype Side = Buy | Sell

  /** One closed candle. `time` is the bar's open time; the provenance columns
      (source, category, ingest time) are never read by the engine and are dropped. */
  datatype Bar = Bar(
    symbol: string, interval: Interval, time: int,
    open: real, high: real, low: real, close: real, volume: real, turnover: real)

  datatype Target = Target(symbol: string, qty: real)

  /** `client_order_id` is the triple symbol|submit time|sequence; a fill rebuilt from
      the journal carries the empty id. */
  datatype OrderId = OrderId(symbol: string, submitTime: int, sequence: nat) | EmptyId

  datatype Order = Order(id: OrderId, symbol: string, side: Side, quantity: real, submitTime: int)

  datatype Fill = Fill(
    id: OrderId, symbol: string, side: Side, quantity: real, price: real, fee: real, time: int)

  datatype EquityPoint = EquityPoint(time: int, equity: real)

  /** A Python dict symbol -> signed quantity: `symbols` is its insertion order. */
  datatype Book = Book(symbols: seq<string>, qty: map<string, real>)

  datatype Snapshot = Snapshot(cash: real, book: Book, marks: map<string, real>)

  datatype Error =
    | ClockMovedBackward | NonPositiveOpen | NegativeBps | NonPositiveEquity

  /** The bar intervals the platform knows; any other name is rejected on sight. */
  datatype Interval = Min1 | Min3 | Min5 | Min15 | Min30 | Hour1 | Hour2 | Hour4 | Hour6 | Hour12
                    | Day | Week | Month

  /** Bar length in minutes. */
  function StepOf(interval: Interval): (r: int)
    ensures r > 0
  {
    match interval
    case Min1 => 1
    case Min3 => 3
    case Min5 => 5
    case Min15 => 15
    case Min30 => 30
    case Hour1 => 60
    case Hour2 => 120
    case Hour4 => 240
    case Hour6 => 360
    case Hour12 => 720
    case Day => 24 * 60
    case Week => 7 * 24 * 60
    case Month => 30 * 24 * 60
  }

  function Signed(side: Side, quantity: real): real {
    if side.Buy? then quantity else -quantity
  }

  function Notional(qty: real, price: real): real {
    qty * price
  }

  lemma NotionalAdds(a: real, b: real, price: real)
    ensures Notional(a + b, price) == Notional(a, price) + Notional(b, price)
    ensures Notional(-a, price) == -Notional(a, price)
    ensures Notional(0.0, price) == 0.0
  {
  }

  ghost predicate BookOk(book: Book) {
    && Distinct(book.symbols)
    && (forall s :: s in book.symbols <==> s in book.qty)
  }

  function QtyOf(book: Book, symbol: string): real {
    if symbol in book.qty then book.qty[symbol] else 0.0
  }

  /** What one holding adds to equity: nothing when flat or unmarked. */
  function HoldingValue(qty: map<string, real>, marks: map<string, real>, symbol: string): real {
    if symbol !in qty || qty[symbol] == 0.0 || symbol !in marks then 0.0
    else qty[symbol] * marks[symbol]
  }

  function HeldValue(symbols: seq<string>, qty: map<string, real>, marks: map<string, real>): real {
    if symbols == [] then 0.0
    else HeldValue(symbols[..|symbols| - 1], qty, marks)
         + HoldingValue(qty, marks, symbols[|symbols| - 1])
  }

  function SnapshotEquity(s: Snapshot): real {
    s.cash + HeldValue(s.book.symbols, s.book.qty, s.marks)
  }

  /** `PortfolioSnapshot.equity`: flat and unmarked holdings are skipped. */
  method EquityOf(s: Snapshot) returns (e: real)
    requires BookOk(s.book)
    ensures e == SnapshotEquity(s)
  {
    var symbols, qty := s.book.symbols, s.book.qty;
    e := s.cash;
    for i := 0 to |symbols|
      invariant e == s.cash + HeldValue(symbols[..i], qty, s.marks)
    {
      assert symbols[..i + 1][..i] == symbols[..i];
      if qty[symbols[i]] == 0.0 || symbols[i] !in s.marks {
        continue;
      }
      e := e + qty[symbols[i]] * s.marks[symbols[i]];
    }
    assert symbols[..|symbols|] == symbols;
  }

  // ------------------------------------------------- ordering and grouping of bars

  /** Code-point order of strings. */
  predicate SymbolLeq(a: string, b: string) {
    a == [] || (b != [] && (a[0] < b[0] || (a[0] == b[0] && SymbolLeq(a[1..], b[1..]))))
  }

  predicate TimeLeq(a: Bar, b: Bar) {
    a.time <= b.time
  }

  /** The replay order: event time, ties broken by symbol. */
  predicate ReplayLeq(a: Bar, b: Bar) {
    a.time < b.time || (a.time == b.time && SymbolLeq(a.symbol, b.symbol))
  }

  lemma {:induction false} SymbolLeqTotal(a: string, b: string)
    ensures SymbolLeq(a, b) || SymbolLeq(b, a)
  {
    if a != [] && b != [] && a[0] == b[0] {
      SymbolLeqTotal(a[1..], b[1..]);
    }
  }

  lemma {:induction false} SymbolLeqTransitive(a: string, b: string, c: string)
    requires SymbolLeq(a, b) && SymbolLeq(b, c)
    ensures SymbolLeq(a, c)
  {
    if a != [] && a[0] == b[0] && b[0] == c[0] {
      SymbolLeqTransitive(a[1..], b[1..], c[1..]);
    }
  }

  lemma ReplayOrder()
    ensures TotalPreorder(ReplayLeq)
    ensures TotalPreorder(TimeLeq)
  {
    forall a: Bar, b: Bar ensures ReplayLeq(a, b) || ReplayLeq(b, a) {
      SymbolLeqTotal(a.symbol, b.symbol);
    }
    forall a: Bar, b: Bar, c: Bar | ReplayLeq(a, b) && ReplayLeq(b, c) ensures ReplayLeq(a, c) {
      if a.time == b.time == c.time {
        SymbolLeqTransitive(a.symbol, b.symbol, c.symbol);
      }
    }
  }

  function ReplaySort(bars: seq<Bar>): seq<Bar> {
    SortBy(bars, ReplayLeq)
  }

  function TimeSort(bars: seq<Bar>): seq<Bar> {
    SortBy(bars, TimeLeq)
  }

  predicate TimeOrdered(bars: seq<Bar>) {
    forall i, j :: 0 <= i < j < |bars| ==> bars[i].time <= bars[j].time
  }

  predicate StrictlyTimeOrdered(bars: seq<Bar>) {
    forall i, j :: 0 <= i < j < |bars| ==> bars[i].time < bars[j].time
  }

  lemma ReplaySortOrdered(bars: seq<Bar>)
    ensures TimeOrdered(ReplaySort(bars))
    ensures SortedBy(ReplaySort(bars), ReplayLeq)
    ensures multiset(ReplaySort(bars)) == multiset(bars)
    ensures forall b :: b in ReplaySort(bars) <==> b in bars
  {
    ReplayOrder();
    SortBySorted(bars, ReplayLeq);
    SortByContents(bars, ReplayLeq);
  }

  /** Length of the leading run of bars that share the first bar's time. */
  function LeadingRun(bars: seq<Bar>): (n: nat)
    requires bars != []
    ensures 1 <= n <= |bars|
  {
    if |bars| == 1 || bars[1].time != bars[0].time then 1
    else 1 + LeadingRun(bars[1..])
  }

  lemma {:induction false} LeadingRunSpec(bars: seq<Bar>)
    requires bars != []
    ensures var n := LeadingRun(bars);
      && (forall k :: 0 <= k < n ==> bars[k].time == bars[0].time)
      && (n < |bars| ==> bars[n].time != bars[0].time)
  {
    if |bars| > 1 && bars[1].time == bars[0].time {
      LeadingRunSpec(bars[1..]);
      var n := LeadingRun(bars);
      forall k | 0 <= k < n ensures bars[k].time == bars[0].time {
        if k > 0 {
          assert bars[k] == bars[1..][k - 1];
        }
      }
    }
  }

  /** itertools.groupby on the event time. */
  function Groups(bars: seq<Bar>): (gs: seq<seq<Bar>>)
    ensures forall i :: 0 <= i < |gs| ==> gs[i] != []
    decreases |bars|
  {
    if bars == [] then []
    else
      var n := LeadingRun(bars);
      [bars[..n]] + Groups(bars[n..])
  }

  /** The group produced by advancing `j` while the time stays that of bar `i` is the next one. */
  lemma NextGroup(bars: seq<Bar>, i: nat, j: nat)
    requires i < j <= |bars|
    requires forall k :: i <= k < j ==> bars[k].time == bars[i].time
    requires j < |bars| ==> bars[j].time != bars[i].time
    ensures Groups(bars[i..]) == [bars[i..j]] + Groups(bars[j..])
  {
    var rest := bars[i..];
    var n := LeadingRun(rest);
    LeadingRunSpec(rest);
    assert forall k :: 0 <= k < |rest| ==> rest[k] == bars[i + k];
    assert n == j - i;
    assert rest[..n] == bars[i..j] && rest[n..] == bars[j..];
  }

  function BySymbol(symbol: string): Bar -> bool {
    (b: Bar) => b.symbol == symbol
  }
}
