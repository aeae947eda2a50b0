/** What a run is worth: every fill is at its own bar's open, every symbol is marked at its latest
    close, and equity is cash plus each holding at that close. Nothing here is said in terms of the
    functions that do it: only of bars, fills and closes. */
module Valuation {
  import opened Collections
  import opened Market
  import opened Timeline
  import opened Source
  import opened Oms
  import opened Venue
  import opened Risk
  import opened Desk
  import opened Backtest
  import opened ReplaySafety

  /** The last bar of a symbol. */
  predicate LastOf(bars: seq<Bar>, s: string, k: nat) {
    && k < |bars| && bars[k].symbol == s
    && forall j :: k < j < |bars| ==> bars[j].symbol != s
  }

  function LastClose(bars: seq<Bar>, s: string): Option<real> {
    if bars == [] then None
    else
      var n := |bars| - 1;
      if bars[n].symbol == s then Some(bars[n].close) else LastClose(bars[..n], s)
  }

  lemma {:induction false} LastCloseIs(bars: seq<Bar>, s: string)
    ensures LastClose(bars, s) == None <==> forall b :: b in bars ==> b.symbol != s
    ensures forall k: nat :: LastOf(bars, s, k) ==> LastClose(bars, s) == Some(bars[k].close)
  {
    if bars != [] {
      var n := |bars| - 1;
      assert bars == bars[..n] + [bars[n]];
      LastCloseIs(bars[..n], s);
      forall k: nat | LastOf(bars, s, k) ensures LastClose(bars, s) == Some(bars[k].close) {
        if k < n {
          assert LastOf(bars[..n], s, k);
        }
      }
    }
  }

  lemma {:induction false} LastCloseAppend(xs: seq<Bar>, ys: seq<Bar>, s: string)
    ensures LastClose(xs + ys, s) == if LastClose(ys, s).Some? then LastClose(ys, s) else LastClose(xs, s)
  {
    if ys == [] {
      assert xs + ys == xs;
    } else {
      assert (xs + ys)[..|xs + ys| - 1] == xs + ys[..|ys| - 1];
      LastCloseAppend(xs, ys[..|ys| - 1], s);
    }
  }

  // ------------------------------------------------------------- marks

  function MarkOf(marks: map<string, real>, s: string): Option<real> {
    if s in marks then Some(marks[s]) else None
  }

  /** The latest close of a symbol, or what it was marked at before these bars. */
  function Price(before: map<string, real>, bars: seq<Bar>): string -> Option<real> {
    (s: string) => if LastClose(bars, s).Some? then LastClose(bars, s) else MarkOf(before, s)
  }

  lemma {:induction false} MarkedAtCloses(marks: map<string, real>, group: seq<Bar>, s: string)
    ensures MarkOf(MarkGroup(marks, group), s) == Price(marks, group)(s)
    decreases |group|
  {
    if group != [] {
      MarkedAtCloses(marks[group[0].symbol := group[0].close], group[1..], s);
      assert group == [group[0]] + group[1..];
      LastCloseAppend([group[0]], group[1..], s);
      assert LastClose([], s) == None;
    }
  }

  // ------------------------------------------------------------- worth of a book

  /** Each holding at its symbol's price, summed; a symbol without one is worth nothing. */
  function Worth(symbols: seq<string>, qty: map<string, real>, price: string -> Option<real>): real {
    if symbols == [] then 0.0
    else
      var n := |symbols| - 1;
      Worth(symbols[..n], qty, price) + HoldingWorth(qty, price, symbols[n])
  }

  function HoldingWorth(qty: map<string, real>, price: string -> Option<real>, s: string): real {
    if s in qty && price(s).Some? then qty[s] * price(s).value else 0.0
  }

  function BookWorth(book: Book, price: string -> Option<real>): real {
    Worth(book.symbols, book.qty, price)
  }

  lemma {:induction false} HeldIsWorth(symbols: seq<string>, qty: map<string, real>, marks: map<string, real>, price: string -> Option<real>)
    requires forall s :: MarkOf(marks, s) == price(s)
    ensures HeldValue(symbols, qty, marks) == Worth(symbols, qty, price)
  {
    if symbols != [] {
      var n := |symbols| - 1;
      HeldIsWorth(symbols[..n], qty, marks, price);
      OneHoldingIsWorth(qty, marks, price, symbols[n]);
    }
  }

  lemma OneHoldingIsWorth(qty: map<string, real>, marks: map<string, real>, price: string -> Option<real>, s: string)
    requires MarkOf(marks, s) == price(s)
    ensures HoldingValue(qty, marks, s) == HoldingWorth(qty, price, s)
  {
    if s in marks && s in qty {
      assert price(s).value == marks[s];
      var q, m := qty[s], marks[s];
      assert HoldingWorth(qty, price, s) == q * m;
      assert q == 0.0 ==> q * m == 0.0;
      assert HoldingValue(qty, marks, s) == q * m;
    }
  }

  // ------------------------------------------------------------- one close

  /** The close of a group marks each of its symbols at the close of that symbol's last bar and
      leaves every other mark alone. */
  lemma CloseMarks(w: World, d: Desk, g: seq<Bar>, s: string)
    requires g != []
    ensures var marks := CloseStep(w, d, g).marks;
      && (forall k: nat :: LastOf(g, s, k) ==> s in marks && marks[s] == g[k].close)
      && ((forall b :: b in g ==> b.symbol != s) ==> MarkOf(marks, s) == MarkOf(d.marks, s))
  {
    hide OpenGroup, MarkGroup;
    OpenKeepsRecord(d, w.rules.costs, g);
    MarkedAtCloses(d.marks, g, s);
    LastCloseIs(g, s);
  }

  /** It records one equity point, at its own time: cash, plus each holding at the last close of its
      symbol in the group, or at its old mark when the group has no bar of it. */
  lemma ClosePoint(w: World, d: Desk, g: seq<Bar>)
    requires g != []
    ensures var d' := CloseStep(w, d, g);
      d'.account.curve == d.account.curve
        + [EquityPoint(g[0].time + w.step, d'.account.cash + BookWorth(d'.account.book, Price(d.marks, g)))]
  {
    hide OpenGroup, MarkGroup, HeldValue, Worth;
    OpenKeepsRecord(d, w.rules.costs, g);
    var d' := CloseStep(w, d, g);
    forall s ensures MarkOf(d'.marks, s) == Price(d.marks, g)(s) {
      MarkedAtCloses(d.marks, g, s);
    }
    HeldIsWorth(d'.account.book.symbols, d'.account.book.qty, d'.marks, Price(d.marks, g));
  }

  // ------------------------------------------------------------- what fills explain

  /** `bps` hundredths of a percent. */
  function BpsOf(x: real, bps: real): real {
    x * bps / 10000.0
  }

  /** A fill at its bar's open, off by the slippage against the trader, its fee charged on what
      it traded at that price. */
  ghost predicate FilledAt(f: Fill, b: Bar, costs: Costs) {
    && f.symbol == b.symbol && f.time == b.time && b.open > 0.0
    && (if f.side.Buy? then f.price - b.open else b.open - f.price) == BpsOf(b.open, costs.slippageBps)
    && f.fee == BpsOf(Notional(f.quantity, f.price), costs.feeBps)
  }

  ghost predicate AllFilled(fills: seq<Fill>, bars: seq<Bar>, costs: Costs) {
    forall f :: f in fills ==> exists b :: b in bars && FilledAt(f, b, costs)
  }

  lemma FillIsAtOpen(costs: Costs, o: Order, b: Bar)
    requires o.symbol == b.symbol && b.open > 0.0
    ensures FilledAt(FillOf(costs, o, b.open, b.time), b, costs)
  {
    var f := FillOf(costs, o, b.open, b.time);
    var slip := costs.slippageBps / 10000.0;
    assert BpsOf(b.open, costs.slippageBps) == b.open * slip;
    assert -1.0 * costs.slippageBps / 10000.0 == -slip && 1.0 * costs.slippageBps / 10000.0 == slip;
    assert b.open * (1.0 - slip) == b.open - b.open * slip;
    assert b.open * (1.0 + slip) == b.open + b.open * slip;
  }

  /** What a fill has earned once its symbol trades at `price`. */
  function FillGain(f: Fill, price: string -> Option<real>): real {
    (match price(f.symbol)
     case Some(p) => Notional(Signed(f.side, f.quantity), p - f.price)
     case None => 0.0) - f.fee
  }

  function Gain(fills: seq<Fill>, price: string -> Option<real>): real {
    if fills == [] then 0.0
    else Gain(fills[..|fills| - 1], price) + FillGain(fills[|fills| - 1], price)
  }

  /** Cash and holdings are what the fills have made of the initial equity. */
  ghost predicate Explained(a: Account, initial: real, price: string -> Option<real>) {
    BookOk(a.book) && a.cash + BookWorth(a.book, price) == initial + Gain(a.fills, price)
  }

  lemma {:induction false} WorthElsewhere(symbols: seq<string>, qty: map<string, real>, price: string -> Option<real>, s: string, q: real)
    requires s !in symbols
    ensures Worth(symbols, qty[s := q], price) == Worth(symbols, qty, price)
  {
    if symbols != [] {
      WorthElsewhere(symbols[..|symbols| - 1], qty, price, s, q);
    }
  }

  /** Changing one holding changes the worth of the book by the change at its price. */
  lemma {:induction false} WorthChanges(symbols: seq<string>, qty: map<string, real>, price: string -> Option<real>, s: string, delta: real)
    requires Distinct(symbols) && s in symbols && s in qty && price(s).Some?
    ensures Worth(symbols, qty[s := qty[s] + delta], price) == Worth(symbols, qty, price) + delta * price(s).value
  {
    var n := |symbols| - 1;
    if symbols[n] == s {
      WorthElsewhere(symbols[..n], qty, price, s, qty[s] + delta);
      assert (qty[s] + delta) * price(s).value == qty[s] * price(s).value + delta * price(s).value;
    } else {
      WorthChanges(symbols[..n], qty, price, s, delta);
    }
  }

  lemma WorthSnoc(symbols: seq<string>, s: string, qty: map<string, real>, price: string -> Option<real>)
    ensures Worth(symbols + [s], qty, price) == Worth(symbols, qty, price) + HoldingWorth(qty, price, s)
  {
    assert (symbols + [s])[..|symbols|] == symbols;
  }

  lemma HoldingAt(qty: map<string, real>, price: string -> Option<real>, s: string, q: real)
    requires price(s).Some?
    ensures HoldingWorth(qty[s := q], price, s) == q * price(s).value
  {
  }

  lemma AdjustChangesWorth(book: Book, price: string -> Option<real>, s: string, delta: real)
    requires BookOk(book) && price(s).Some?
    ensures BookWorth(Adjust(book, s, delta), price) == BookWorth(book, price) + delta * price(s).value
  {
    hide Worth, HoldingWorth;
    if s in book.qty {
      WorthChanges(book.symbols, book.qty, price, s, delta);
    } else {
      WorthElsewhere(book.symbols, book.qty, price, s, delta);
      WorthSnoc(book.symbols, s, book.qty[s := delta], price);
      HoldingAt(book.qty, price, s, delta);
      assert Adjust(book, s, delta) == Book(book.symbols + [s], book.qty[s := delta]);
    }
  }

  lemma FillExplained(a: Account, f: Fill, initial: real, price: string -> Option<real>)
    requires Explained(a, initial, price) && price(f.symbol).Some?
    ensures Explained(ApplyFill(a, f), initial, price)
  {
    hide Worth;
    var signed, p := Signed(f.side, f.quantity), price(f.symbol).value;
    AdjustKeepsBookOk(a.book, f.symbol, signed);
    AdjustChangesWorth(a.book, price, f.symbol, signed);
    assert (a.fills + [f])[..|a.fills|] == a.fills;
    assert signed * (p - f.price) == signed * p - signed * f.price;
  }

  lemma {:induction false} FillsExplained(a: Account, fills: seq<Fill>, initial: real, price: string -> Option<real>)
    requires Explained(a, initial, price) && forall f :: f in fills ==> price(f.symbol).Some?
    ensures Explained(ApplyFills(a, fills), initial, price)
    decreases |fills|
  {
    if fills != [] {
      hide Explained, ApplyFill;
      assert fills[0] in fills;
      FillExplained(a, fills[0], initial, price);
      FillsExplained(ApplyFill(a, fills[0]), fills[1..], initial, price);
    }
  }

  /** Books explained by fills, each fill at the open of one of the bars. */
  ghost predicate Sound(a: Account, costs: Costs, initial: real, price: string -> Option<real>, bars: seq<Bar>) {
    Explained(a, initial, price) && AllFilled(a.fills, bars, costs)
  }

  lemma OpenBarSound(d: Desk, costs: Costs, b: Bar, initial: real, price: string -> Option<real>, bars: seq<Bar>)
    requires Sound(d.account, costs, initial, price, bars)
    requires b in bars && b.open > 0.0 && price(b.symbol).Some?
    ensures Sound(OpenBar(d, costs, b).account, costs, initial, price, bars)
  {
    hide Explained, FillOf, FilledAt, ApplyFills, OrderFor;
    var hit := Filter(d.pending, OrderFor(b.symbol));
    var fills := FillsOf(costs, hit, b.open, b.time);
    forall f | f in fills ensures f.symbol == b.symbol && FilledAt(f, b, costs) {
      var k :| 0 <= k < |fills| && fills[k] == f;
      HitIsMine(d.pending, b.symbol, hit[k]);
      FillIsAtOpen(costs, hit[k], b);
      FilledSymbol(f, b, costs);
    }
    ApplyFillsHistory(d.account, fills);
    FillsExplained(d.account, fills, initial, price);
  }

  lemma HitIsMine(pending: seq<Order>, s: string, o: Order)
    requires o in Filter(pending, OrderFor(s))
    ensures o.symbol == s
  {
    assert OrderFor(s)(o);
  }

  lemma FilledSymbol(f: Fill, b: Bar, costs: Costs)
    requires FilledAt(f, b, costs)
    ensures f.symbol == b.symbol
  {
  }

  lemma {:induction false} OpenGroupSound(
      d: Desk, costs: Costs, group: seq<Bar>, initial: real, price: string -> Option<real>, bars: seq<Bar>)
    requires Sound(d.account, costs, initial, price, bars)
    requires forall b :: b in group ==> b in bars && price(b.symbol).Some?
    ensures Sound(OpenGroup(d, costs, group).account, costs, initial, price, bars)
    decreases |group|
  {
    if group != [] && group[0].open > 0.0 {
      hide Sound, OpenBar;
      assert group[0] in group;
      OpenBarSound(d, costs, group[0], initial, price, bars);
      OpenGroupSound(OpenBar(d, costs, group[0]), costs, group[1..], initial, price, bars);
    }
  }

  // ------------------------------------------------------------- whole runs

  function Closes(bars: seq<Bar>): string -> Option<real> {
    (s: string) => LastClose(bars, s)
  }

  lemma StepSound<S>(
      w: World, strategy: Strategy<S>, r: Replay<S>, g: seq<Bar>, initial: real, price: string -> Option<real>, bars: seq<Bar>)
    requires g != [] && Sound(r.desk.account, w.rules.costs, initial, price, bars)
    requires forall b :: b in g ==> b in bars && price(b.symbol).Some?
    ensures Sound(StepGroup(w, strategy, r, g).desk.account, w.rules.costs, initial, price, bars)
  {
    hide OpenGroup, DecideGroup, BookWorth, Gain, FilledAt, MarkGroup, RiskUpdate, Equity;
    OpenGroupSound(r.desk, w.rules.costs, g, initial, price, bars);
    DecideKeepsClock(Closed(w, r, g), strategy, View(w.bars, g[0].time + w.step), g);
  }

  lemma {:induction false} RunSound<S>(
      w: World, strategy: Strategy<S>, r: Replay<S>, groups: seq<seq<Bar>>, initial: real, price: string -> Option<real>,
      bars: seq<Bar>)
    requires NonEmptyGroups(groups) && RunGroups(w, strategy, r, groups).Success?
    requires Sound(r.desk.account, w.rules.costs, initial, price, bars)
    requires forall b :: b in Flatten(groups) ==> b in bars && price(b.symbol).Some?
    ensures Sound(RunGroups(w, strategy, r, groups).value.desk.account, w.rules.costs, initial, price, bars)
    decreases |groups|
  {
    if groups != [] {
      hide Sound, StepGroup, OpensPositive;
      assert Flatten(groups) == groups[0] + Flatten(groups[1..]);
      StepSound(w, strategy, r, groups[0], initial, price, bars);
      RunSound(w, strategy, StepGroup(w, strategy, r, groups[0]), groups[1..], initial, price, bars);
    }
  }

  /** The last recorded point is what the desk is worth at its marks. */
  ghost predicate Recorded(d: Desk, time: int, price: string -> Option<real>) {
    var curve := d.account.curve;
    curve != [] && curve[|curve| - 1] == EquityPoint(time, d.account.cash + BookWorth(d.account.book, price))
  }

  lemma StepRecords<S>(w: World, strategy: Strategy<S>, r: Replay<S>, g: seq<Bar>)
    requires g != []
    ensures var d := StepGroup(w, strategy, r, g).desk;
      && Recorded(d, g[0].time + w.step, Price(r.desk.marks, g))
      && |d.account.curve| == |r.desk.account.curve| + 1
      && forall s :: MarkOf(d.marks, s) == Price(r.desk.marks, g)(s)
  {
    hide OpenGroup, DecideGroup, MarkGroup, HeldValue, Worth, RiskUpdate;
    var closed := Closed(w, r, g);
    ClosePoint(w, r.desk, g);
    OpenKeepsRecord(r.desk, w.rules.costs, g);
    forall s ensures MarkOf(closed.desk.marks, s) == Price(r.desk.marks, g)(s) {
      MarkedAtCloses(r.desk.marks, g, s);
    }
    DecideKeepsClock(closed, strategy, View(w.bars, g[0].time + w.step), g);
  }

  lemma PriceAppend(before: map<string, real>, marks: map<string, real>, xs: seq<Bar>, ys: seq<Bar>)
    requires forall s :: MarkOf(marks, s) == Price(before, xs)(s)
    ensures forall s :: Price(marks, ys)(s) == Price(before, xs + ys)(s)
  {
    hide LastClose;
    forall s ensures Price(marks, ys)(s) == Price(before, xs + ys)(s) {
      LastCloseAppend(xs, ys, s);
      assert MarkOf(marks, s) == Price(before, xs)(s);
    }
  }

  lemma SamePriceRecorded(d: Desk, time: int, p: string -> Option<real>, q: string -> Option<real>)
    requires Recorded(d, time, p) && forall s :: p(s) == q(s)
    ensures Recorded(d, time, q)
  {
    SameWorth(d.account.book.symbols, d.account.book.qty, p, q);
  }

  /** What a run over these groups has recorded: a point a group, marks at the latest closes, and
      the last point worth the desk at them. */
  ghost predicate RecordedOver(d: Desk, d': Desk, step: int, groups: seq<seq<Bar>>)
    requires NonEmptyGroups(groups)
  {
    && |d'.account.curve| == |d.account.curve| + |groups|
    && (forall s :: MarkOf(d'.marks, s) == Price(d.marks, Flatten(groups))(s))
    && (groups != [] ==> Recorded(d', groups[|groups| - 1][0].time + step, Price(d.marks, Flatten(groups))))
  }

  lemma RecordedNext(d: Desk, next: Desk, d': Desk, step: int, groups: seq<seq<Bar>>)
    requires groups != [] && NonEmptyGroups(groups) && NonEmptyGroups(groups[1..])
    requires RecordedOver(next, d', step, groups[1..]) && (|groups| == 1 ==> d' == next)
    requires |next.account.curve| == |d.account.curve| + 1
    requires Recorded(next, groups[0][0].time + step, Price(d.marks, groups[0]))
    requires forall s :: MarkOf(next.marks, s) == Price(d.marks, groups[0])(s)
    ensures RecordedOver(d, d', step, groups)
  {
    hide Recorded, Price, MarkOf, Flatten;
    var g, rest := groups[0], groups[1..];
    FlattenNext(groups);
    PriceAppend(d.marks, next.marks, g, Flatten(rest));
    if rest == [] {
      FlattenNone();
      assert g + [] == g;
    } else {
      assert groups[|groups| - 1] == rest[|rest| - 1];
      SamePriceRecorded(d', rest[|rest| - 1][0].time + step, Price(next.marks, Flatten(rest)), Price(d.marks, Flatten(groups)));
    }
  }

  lemma FlattenNext(groups: seq<seq<Bar>>)
    requires groups != []
    ensures Flatten(groups) == groups[0] + Flatten(groups[1..])
  {
  }

  lemma FlattenNone()
    ensures Flatten([]) == []
  {
  }

  lemma RunNext<S>(w: World, strategy: Strategy<S>, r: Replay<S>, groups: seq<seq<Bar>>)
    requires groups != [] && NonEmptyGroups(groups) && RunGroups(w, strategy, r, groups).Success?
    ensures NonEmptyGroups(groups[1..])
    ensures RunGroups(w, strategy, r, groups) == RunGroups(w, strategy, StepGroup(w, strategy, r, groups[0]), groups[1..])
    ensures |groups| == 1 ==> RunGroups(w, strategy, r, groups) == Success(StepGroup(w, strategy, r, groups[0]))
  {
    hide StepGroup, OpensPositive;
  }

  lemma {:induction false} RunRecords<S>(w: World, strategy: Strategy<S>, r: Replay<S>, groups: seq<seq<Bar>>)
    requires NonEmptyGroups(groups) && RunGroups(w, strategy, r, groups).Success?
    ensures RecordedOver(r.desk, RunGroups(w, strategy, r, groups).value.desk, w.step, groups)
    decreases |groups|
  {
    hide StepGroup, Recorded, Price, MarkOf, RunGroups;
    if groups == [] {
      NothingRuns(w, strategy, r);
      PriceOfNone(r.desk.marks);
    } else {
      hide RecordedOver;
      RunNext(w, strategy, r, groups);
      var next := StepGroup(w, strategy, r, groups[0]);
      StepRecords(w, strategy, r, groups[0]);
      RunRecords(w, strategy, next, groups[1..]);
      RecordedNext(r.desk, next.desk, RunGroups(w, strategy, r, groups).value.desk, w.step, groups);
    }
  }

  lemma PriceOfNone(before: map<string, real>)
    ensures forall s :: Price(before, [])(s) == MarkOf(before, s)
  {
  }

  lemma {:induction false} SameWorth(symbols: seq<string>, qty: map<string, real>, p: string -> Option<real>, q: string -> Option<real>)
    requires forall s :: p(s) == q(s)
    ensures Worth(symbols, qty, p) == Worth(symbols, qty, q)
  {
    if symbols != [] {
      SameWorth(symbols[..|symbols| - 1], qty, p, q);
      assert p(symbols[|symbols| - 1]) == q(symbols[|symbols| - 1]);
    }
  }

  /** A completed run from a fresh desk, over any groups: its last recorded equity is cash plus each
      holding at its symbol's last close, and that is the initial equity plus what every fill has
      earned up to that close, every fill being at the open of a bar of its symbol and time. */
  lemma RunIsExplained<S>(
      w: World, strategy: Strategy<S>, initial: real, risk: RiskState, mind: S, start: int, groups: seq<seq<Bar>>)
    requires NonEmptyGroups(groups) && groups != []
    requires RunGroups(w, strategy, Start(initial, risk, mind, start), groups).Success?
    ensures var bars := Flatten(groups);
      var a := RunGroups(w, strategy, Start(initial, risk, mind, start), groups).value.desk.account;
      && |a.curve| == |groups|
      && a.curve[|groups| - 1] == EquityPoint(groups[|groups| - 1][0].time + w.step, a.cash + BookWorth(a.book, Closes(bars)))
      && a.cash + BookWorth(a.book, Closes(bars)) == initial + Gain(a.fills, Closes(bars))
      && AllFilled(a.fills, bars, w.rules.costs)
  {
    hide RunGroups, Worth, FilledAt, LastClose, Flatten;
    var bars := Flatten(groups);
    var r := Start(initial, risk, mind, start);
    RunRecords(w, strategy, r, groups);
    var a := RunGroups(w, strategy, r, groups).value.desk.account;
    SameWorth(a.book.symbols, a.book.qty, Price(map[], bars), Closes(bars));
    forall b | b in bars ensures Closes(bars)(b.symbol).Some? {
      LastCloseIs(bars, b.symbol);
    }
    assert BookWorth(Book([], map[]), Closes(bars)) == 0.0 by {
      NoBookNoWorth(Closes(bars));
    }
    RunSound(w, strategy, r, groups, initial, Closes(bars), bars);
  }

  lemma NoBookNoWorth(price: string -> Option<real>)
    ensures BookWorth(Book([], map[]), price) == 0.0
  {
  }

  lemma {:induction false} FlattenGroups(bars: seq<Bar>)
    ensures Flatten(Groups(bars)) == bars
    decreases |bars|
  {
    if bars != [] {
      var n := LeadingRun(bars);
      FirstGroup(bars);
      FlattenGroups(bars[n..]);
      assert ([bars[..n]] + Groups(bars[n..]))[1..] == Groups(bars[n..]);
      assert bars == bars[..n] + bars[n..];
    }
  }

  /** The same of every point of the equity curve: point `n - 1` is recorded at the close of the
      n-th group, and is what the fills made by then have earned at the closes seen by then. */
  lemma EveryPointIsExplained<S>(
      w: World, strategy: Strategy<S>, initial: real, risk: RiskState, mind: S, start: int, groups: seq<seq<Bar>>, n: nat)
    requires UniformGroups(groups) && 0 < n <= |groups|
    requires RunGroups(w, strategy, Start(initial, risk, mind, start), groups).Success?
    ensures NonEmptyGroups(groups[..n])
    ensures var a := RunGroups(w, strategy, Start(initial, risk, mind, start), groups).value.desk.account;
      var sofar := RunGroups(w, strategy, Start(initial, risk, mind, start), groups[..n]);
      var bars := Flatten(groups[..n]);
      && sofar.Success? && sofar.value.desk.account.fills <= a.fills && |a.curve| == |groups|
      && a.curve[n - 1] == EquityPoint(groups[n - 1][0].time + w.step, initial + Gain(sofar.value.desk.account.fills, Closes(bars)))
  {
    hide RunGroups, Gain, FilledAt, LastClose, Flatten;
    var r := Start(initial, risk, mind, start);
    assert groups == groups[..n] + groups[n..];
    assert NonEmptyGroups(groups[..n]) && NonEmptyGroups(groups[n..]);
    RunAppend(w, strategy, r, groups[..n], groups[n..]);
    RunIsExplained(w, strategy, initial, risk, mind, start, groups[..n]);
    RunRecords(w, strategy, r, groups);
    var m := RunGroups(w, strategy, r, groups[..n]).value;
    RunOnlyAppends(w, strategy, m, groups[n..]);
  }

  lemma {:induction false} RunOnlyAppends<S>(w: World, strategy: Strategy<S>, r: Replay<S>, groups: seq<seq<Bar>>)
    requires UniformGroups(groups) && NonEmptyGroups(groups) && RunGroups(w, strategy, r, groups).Success?
    ensures var a, a' := r.desk.account, RunGroups(w, strategy, r, groups).value.desk.account;
      a.fills <= a'.fills && a.curve <= a'.curve
    decreases |groups|
  {
    if groups != [] {
      hide StepGroup, OpensPositive;
      StepAppends(w, strategy, r, groups[0]);
      RunOnlyAppends(w, strategy, StepGroup(w, strategy, r, groups[0]), groups[1..]);
    }
  }

  /** What `run_backtest` reports: the run's own curve, fills and reasons, and as final equity what
      the end state is worth at the last close of each symbol in the whole timeline, which the
      reported fills explain; without bars, the initial equity. */
  lemma FinalEquityIsWorth<S>(config: Config, w: World, strategy: Strategy<S>, risk: RiskState, mind: S, start: int)
    requires BacktestOutcome(config, w, strategy, risk, mind, start).Success?
    ensures var report := BacktestOutcome(config, w, strategy, risk, mind, start).value;
      var end := RunGroups(w, strategy, Start(config.initialEquity, risk, mind, start), Groups(w.bars));
      && end.Success?
      && var a := end.value.desk.account;
      && report.initialEquity == config.initialEquity && report.reasons == end.value.desk.risk.ever
      && report.curve == a.curve && report.fills == a.fills
      && report.finalEquity == (if w.bars == [] then config.initialEquity else a.cash + BookWorth(a.book, Closes(w.bars)))
      && report.finalEquity == config.initialEquity + Gain(report.fills, Closes(w.bars))
      && AllFilled(report.fills, w.bars, w.rules.costs)
  {
    hide RunGroups, Worth, FilledAt, LastClose, Flatten;
    FlattenGroups(w.bars);
    if w.bars == [] {
      NothingRuns(w, strategy, Start(config.initialEquity, risk, mind, start));
    } else {
      GroupsWithin(w.bars);
      RunIsExplained(w, strategy, config.initialEquity, risk, mind, start, Groups(w.bars));
    }
  }

  lemma NothingRuns<S>(w: World, strategy: Strategy<S>, r: Replay<S>)
    ensures RunGroups(w, strategy, r, []) == Success(r) && Flatten([]) == [] && Groups([]) == []
  {
  }
}
