/** Every order ever numbered is either still queued or has been filled exactly once, and no
    fill precedes the decision that asked for it; the halts of a run are those of its own
    equity curve. */
module OrderLedger {
  import opened Collections
  import opened Market
  import opened Timeline
  import opened Source
  import opened Oms
  import opened Venue
  import opened Risk
  import opened Drawdown
  import opened Desk
  import opened Backtest
  import opened ReplaySafety

  function NumberOf(id: OrderId): int {
    if id.OrderId? then id.sequence else 0
  }

  /** How often an order number occurs in the queue, and in the fill history. */
  ghost function Queued(orders: seq<Order>, x: int): nat {
    if orders == [] then 0 else (if NumberOf(orders[0].id) == x then 1 else 0) + Queued(orders[1..], x)
  }

  ghost function Filled(fills: seq<Fill>, x: int): nat {
    if fills == [] then 0 else (if NumberOf(fills[0].id) == x then 1 else 0) + Filled(fills[1..], x)
  }

  /** The numbers handed out so far are 1..orderSeq, and each is queued or filled, once. */
  ghost predicate Accounted(d: Desk) {
    forall x :: Filled(d.account.fills, x) + Queued(d.pending, x) == if 1 <= x <= d.account.orderSeq then 1 else 0
  }

  /** Queued orders were submitted by now; fills happened no earlier than their decision. */
  ghost predicate Causal(d: Desk, now: int) {
    && (forall o :: o in d.pending ==>
          o.id.OrderId? && o.id.symbol == o.symbol && o.id.submitTime == o.submitTime <= now)
    && (forall f :: f in d.account.fills ==>
          f.id.OrderId? && f.id.symbol == f.symbol && f.id.submitTime <= f.time)
  }

  lemma {:induction false} QueuedAppend(xs: seq<Order>, ys: seq<Order>, x: int)
    ensures Queued(xs + ys, x) == Queued(xs, x) + Queued(ys, x)
  {
    if xs == [] {
      assert xs + ys == ys;
    } else {
      assert (xs + ys)[1..] == xs[1..] + ys;
      QueuedAppend(xs[1..], ys, x);
    }
  }

  lemma {:induction false} FilledAppend(xs: seq<Fill>, ys: seq<Fill>, x: int)
    ensures Filled(xs + ys, x) == Filled(xs, x) + Filled(ys, x)
  {
    if xs == [] {
      assert xs + ys == ys;
    } else {
      assert (xs + ys)[1..] == xs[1..] + ys;
      FilledAppend(xs[1..], ys, x);
    }
  }

  lemma {:induction false} FilledAreQueued(costs: Costs, orders: seq<Order>, open: real, time: int, x: int)
    ensures Filled(FillsOf(costs, orders, open, time), x) == Queued(orders, x)
  {
    if orders != [] {
      FilledAreQueued(costs, orders[1..], open, time, x);
      assert FillsOf(costs, orders, open, time)[1..] == FillsOf(costs, orders[1..], open, time);
    }
  }

  lemma {:induction false} QueueSplits(orders: seq<Order>, symbol: string, x: int)
    ensures Queued(Filter(orders, OrderFor(symbol)), x) + Queued(Filter(orders, OrderNotFor(symbol)), x) == Queued(orders, x)
  {
    if orders != [] {
      var o, rest := orders[0], orders[1..];
      QueueSplits(rest, symbol, x);
      QueuedAppend([o], Filter(rest, OrderFor(symbol)), x);
      QueuedAppend([o], Filter(rest, OrderNotFor(symbol)), x);
      if o.symbol == symbol {
        assert Filter(orders, OrderNotFor(symbol)) == Filter(rest, OrderNotFor(symbol));
      } else {
        assert Filter(orders, OrderFor(symbol)) == Filter(rest, OrderFor(symbol));
      }
    }
  }

  lemma OpenBarKeepsLedger(d: Desk, costs: Costs, b: Bar)
    requires Accounted(d) && Causal(d, b.time)
    ensures Accounted(OpenBar(d, costs, b)) && Causal(OpenBar(d, costs, b), b.time)
  {
    var hit := Filter(d.pending, OrderFor(b.symbol));
    var fills := FillsOf(costs, hit, b.open, b.time);
    ApplyFillsHistory(d.account, fills);
    var d' := OpenBar(d, costs, b);
    forall x ensures Filled(d'.account.fills, x) + Queued(d'.pending, x)
                     == Filled(d.account.fills, x) + Queued(d.pending, x)
    {
      QueueSplits(d.pending, b.symbol, x);
      FilledAppend(d.account.fills, fills, x);
      FilledAreQueued(costs, hit, b.open, b.time, x);
    }
    FillsAreCausal(costs, hit, b);
  }

  lemma FillsAreCausal(costs: Costs, hit: seq<Order>, b: Bar)
    requires forall o :: o in hit ==> o.id.OrderId? && o.id.symbol == o.symbol && o.id.submitTime <= b.time
    ensures forall f :: f in FillsOf(costs, hit, b.open, b.time) ==>
      f.id.OrderId? && f.id.symbol == f.symbol && f.id.submitTime <= f.time
  {
    var fills := FillsOf(costs, hit, b.open, b.time);
    forall f | f in fills ensures f.id.OrderId? && f.id.symbol == f.symbol && f.id.submitTime <= f.time {
      var k :| 0 <= k < |fills| && fills[k] == f;
      assert hit[k] in hit;
    }
  }

  lemma {:induction false} OpenGroupKeepsLedger(d: Desk, costs: Costs, group: seq<Bar>, t: int)
    requires forall b :: b in group ==> b.time == t
    requires Accounted(d) && Causal(d, t)
    ensures Accounted(OpenGroup(d, costs, group)) && Causal(OpenGroup(d, costs, group), t)
    decreases |group|
  {
    if group != [] && group[0].open > 0.0 {
      OpenBarKeepsLedger(d, costs, group[0]);
      OpenGroupKeepsLedger(OpenBar(d, costs, group[0]), costs, group[1..], t);
    }
  }

  lemma {:induction false} DeltaOrdersNumbered(book: Book, targets: seq<Target>, submitTime: int, orderSeq: nat, x: int)
    ensures var os := DeltaOrders(book, targets, submitTime, orderSeq);
      Queued(os, x) == if orderSeq < x <= orderSeq + |os| then 1 else 0
    decreases |targets|
  {
    if targets != [] {
      DeltaOrdersNumbered(book, targets[1..], submitTime, orderSeq, x);
      DeltaOrdersNumbered(book, targets[1..], submitTime, orderSeq + 1, x);
    }
  }

  lemma {:induction false} DeltaOrdersCausal(book: Book, targets: seq<Target>, submitTime: int, orderSeq: nat)
    ensures forall o :: o in DeltaOrders(book, targets, submitTime, orderSeq) ==>
      o.id.OrderId? && o.id.symbol == o.symbol && o.id.submitTime == o.submitTime == submitTime
    decreases |targets|
  {
    if targets != [] {
      DeltaOrdersCausal(book, targets[1..], submitTime, orderSeq);
      DeltaOrdersCausal(book, targets[1..], submitTime, orderSeq + 1);
    }
  }

  lemma QueueKeepsAccount(d: Desk, allowed: seq<Target>, submitTime: int)
    requires Accounted(d)
    ensures Accounted(QueueTargets(d, allowed, submitTime))
  {
    var n := d.account.orderSeq;
    var orders := DeltaOrders(d.account.book, allowed, submitTime, n);
    forall x ensures Filled(d.account.fills, x) + Queued(d.pending + orders, x) == if 1 <= x <= n + |orders| then 1 else 0 {
      DeltaOrdersNumbered(d.account.book, allowed, submitTime, n, x);
      QueuedAppend(d.pending, orders, x);
    }
  }

  lemma QueueKeepsCausal(d: Desk, allowed: seq<Target>, submitTime: int)
    requires Causal(d, submitTime)
    ensures Causal(QueueTargets(d, allowed, submitTime), submitTime)
  {
    DeltaOrdersCausal(d.account.book, allowed, submitTime, d.account.orderSeq);
  }

  lemma {:induction false} DecideKeepsLedger<S>(r: Replay<S>, strategy: Strategy<S>, view: View, group: seq<Bar>)
    requires Accounted(r.desk) && Causal(r.desk, view.now)
    ensures Accounted(DecideGroup(r, strategy, view, group).desk)
    ensures Causal(DecideGroup(r, strategy, view, group).desk, view.now)
    decreases |group|
  {
    if group != [] {
      var (_, raw) := strategy(r.mind, group[0], view, TakeSnapshot(r.desk.account, r.desk.marks));
      QueueKeepsAccount(r.desk, GateTargets(r.desk.risk, raw), view.now);
      QueueKeepsCausal(r.desk, GateTargets(r.desk.risk, raw), view.now);
      DecideKeepsLedger(DecideBar(r, strategy, view, group[0]), strategy, view, group[1..]);
    }
  }

  lemma StepKeepsLedger<S>(w: World, strategy: Strategy<S>, r: Replay<S>, g: seq<Bar>)
    requires g != [] && SameTime(g) && w.step > 0
    requires Accounted(r.desk) && Causal(r.desk, g[0].time)
    ensures var r' := StepGroup(w, strategy, r, g); Accounted(r'.desk) && Causal(r'.desk, r'.now)
  {
    var close := g[0].time + w.step;
    CloseKeepsLedger(w, r.desk, g);
    StepSetsClock(w, strategy, r, g);
    var closed := Closed(w, r, g);
    assert StepGroup(w, strategy, r, g) == DecideGroup(closed, strategy, View(w.bars, close), g);
    DecideKeepsLedger(closed, strategy, View(w.bars, close), g);
  }

  lemma CloseKeepsLedger(w: World, d: Desk, g: seq<Bar>)
    requires g != [] && SameTime(g) && w.step > 0
    requires Accounted(d) && Causal(d, g[0].time)
    ensures Accounted(CloseStep(w, d, g)) && Causal(CloseStep(w, d, g), g[0].time + w.step)
  {
    OpenGroupKeepsLedger(d, w.rules.costs, g, g[0].time);
  }

  /** Holds after every prefix of every completed run: each order number is queued or filled,
      never both and never twice, and every fill is at or after its order's submission. */
  lemma {:induction false} EveryOrderFillsOnce<S>(w: World, strategy: Strategy<S>, r: Replay<S>, groups: seq<seq<Bar>>)
    requires UniformGroups(groups) && w.step > 0
    requires Accounted(r.desk) && Causal(r.desk, r.now)
    requires RunGroups(w, strategy, r, groups).Success?
    ensures var r' := RunGroups(w, strategy, r, groups).value;
      Accounted(r'.desk) && Causal(r'.desk, r'.now)
    decreases |groups|
  {
    if groups != [] {
      StepKeepsLedger(w, strategy, r, groups[0]);
      EveryOrderFillsOnce(w, strategy, StepGroup(w, strategy, r, groups[0]), groups[1..]);
    }
  }

  /** In particular of every completed run from a fresh desk, whose orders are numbered from one. */
  lemma FreshRunFillsOnce<S>(
      w: World, strategy: Strategy<S>, initialEquity: real, risk: RiskState, mind: S, start: int, groups: seq<seq<Bar>>)
    requires UniformGroups(groups) && w.step > 0
    requires RunGroups(w, strategy, Start(initialEquity, risk, mind, start), groups).Success?
    ensures var r := RunGroups(w, strategy, Start(initialEquity, risk, mind, start), groups).value;
      Accounted(r.desk) && Causal(r.desk, r.now)
  {
    EveryOrderFillsOnce(w, strategy, Start(initialEquity, risk, mind, start), groups);
  }

  /** The reading of `Accounted` for one order: no two fills share a number, and a filled order
      is no longer queued. */
  lemma AccountedMeansOnce(d: Desk, i: nat, j: nat)
    requires Accounted(d)
    requires i < |d.account.fills|
    ensures 1 <= NumberOf(d.account.fills[i].id) <= d.account.orderSeq
    ensures j < |d.account.fills| && i != j ==> NumberOf(d.account.fills[i].id) != NumberOf(d.account.fills[j].id)
    ensures j < |d.pending| ==> NumberOf(d.account.fills[i].id) != NumberOf(d.pending[j].id)
  {
    var fills, x := d.account.fills, NumberOf(d.account.fills[i].id);
    FilledHas(fills, i);
    if j < |fills| && i != j {
      var lo, hi := if i < j then i else j, if i < j then j else i;
      assert fills == fills[..hi] + fills[hi..];
      FilledAppend(fills[..hi], fills[hi..], x);
      FilledHas(fills[..hi], lo);
      FilledHas(fills[hi..], 0);
    }
    if j < |d.pending| {
      QueuedHas(d.pending, j);
    }
  }

  lemma {:induction false} FilledHas(fills: seq<Fill>, i: nat)
    requires i < |fills|
    ensures Filled(fills, NumberOf(fills[i].id)) >= 1
  {
    if i > 0 {
      FilledHas(fills[1..], i - 1);
    }
  }

  lemma {:induction false} QueuedHas(orders: seq<Order>, i: nat)
    requires i < |orders|
    ensures Queued(orders, NumberOf(orders[i].id)) >= 1
  {
    if i > 0 {
      QueuedHas(orders[1..], i - 1);
    }
  }

  // ------------------------------------------------------------- halts of a run

  lemma StepFollowsCurve<S>(w: World, strategy: Strategy<S>, r: Replay<S>, g: seq<Bar>, initial: real)
    requires g != [] && SameTime(g)
    requires r.desk.risk == RiskAfter(initial, w.rules.cal, w.rules.limits, r.desk.account.curve)
    ensures var d := StepGroup(w, strategy, r, g).desk;
      d.risk == RiskAfter(initial, w.rules.cal, w.rules.limits, d.account.curve)
  {
    var close := g[0].time + w.step;
    OpenGroupFills(r.desk, w.rules.costs, g, g[0].time);
    var d := CloseStep(w, r.desk, g);
    assert d.account.curve[..|d.account.curve| - 1] == r.desk.account.curve;
    DecideKeepsClock(Replay(d, r.mind, close), strategy, View(w.bars, close), g);
  }

  /** The risk state is a function of the recorded equity curve alone. */
  lemma {:induction false} HaltsComeFromTheCurve<S>(
      w: World, strategy: Strategy<S>, r: Replay<S>, groups: seq<seq<Bar>>, initial: real)
    requires UniformGroups(groups)
    requires RunGroups(w, strategy, r, groups).Success?
    requires r.desk.risk == RiskAfter(initial, w.rules.cal, w.rules.limits, r.desk.account.curve)
    ensures var d := RunGroups(w, strategy, r, groups).value.desk;
      d.risk == RiskAfter(initial, w.rules.cal, w.rules.limits, d.account.curve)
    decreases |groups|
  {
    if groups != [] {
      StepFollowsCurve(w, strategy, r, groups[0], initial);
      HaltsComeFromTheCurve(w, strategy, StepGroup(w, strategy, r, groups[0]), groups[1..], initial);
    }
  }

  /** A fresh backtest over any bars: what it reports as triggered halts are exactly the
      reasons whose limit some prefix of its own equity curve had breached in the then current
      day, week or month. */
  lemma ReportedReasons<S>(config: Config, w: World, strategy: Strategy<S>, mind: S, start: int, reason: Reason)
    requires BacktestOutcome(config, w, strategy, NewRisk(config.initialEquity), mind, start).Success?
    ensures var report := BacktestOutcome(config, w, strategy, NewRisk(config.initialEquity), mind, start).value;
      reason in report.reasons
      <==> exists n :: 0 <= n <= |report.curve|
                && ActiveAfter(config.initialEquity, w.rules.cal, w.rules.limits, report.curve[..n], reason)
  {
    var r := Start(config.initialEquity, NewRisk(config.initialEquity), mind, start);
    GroupsAreUniform(w.bars);
    HaltsComeFromTheCurve(w, strategy, r, Groups(w.bars), config.initialEquity);
    var d := RunGroups(w, strategy, r, Groups(w.bars)).value.desk;
    ReasonsEverSeen(config.initialEquity, w.rules.cal, w.rules.limits, d.account.curve, reason);
  }
}
