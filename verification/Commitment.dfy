/** Where a position is heading: what is held plus what is queued. Opens keep it, and each target
    the gate lets through moves it by that target's gap from the holding alone, because delta
    orders do not look at the queue. Nothing is asked of the strategy or of the bars. */
module Commitment {
  import opened Collections
  import opened Market
  import opened Timeline
  import opened Source
  import opened Oms
  import opened Venue
  import opened Risk
  import opened Desk
  import opened Backtest

  predicate HasSymbol(group: seq<Bar>, s: string) {
    exists i :: 0 <= i < |group| && group[i].symbol == s
  }

  function Mine(d: Desk, s: string): seq<Order> {
    Filter(d.pending, OrderFor(s))
  }

  function Held(d: Desk, s: string): real {
    QtyOf(d.account.book, s)
  }

  /** What a list of orders does to a holding. */
  function Net(orders: seq<Order>): real {
    if orders == [] then 0.0 else Signed(orders[0].side, orders[0].quantity) + Net(orders[1..])
  }

  function Committed(d: Desk, s: string): real {
    Held(d, s) + Net(Mine(d, s))
  }

  lemma {:induction false} NetAppend(xs: seq<Order>, ys: seq<Order>)
    ensures Net(xs + ys) == Net(xs) + Net(ys)
  {
    if xs == [] {
      assert xs + ys == ys;
    } else {
      assert (xs + ys)[1..] == xs[1..] + ys;
      NetAppend(xs[1..], ys);
    }
  }

  lemma NetOfOne(o: Order)
    ensures Net([o]) == Signed(o.side, o.quantity)
  {
    assert [o][1..] == [];
  }

  lemma HasSymbolStep(group: seq<Bar>, s: string)
    requires group != []
    ensures HasSymbol(group, s) <==> group[0].symbol == s || HasSymbol(group[1..], s)
  {
    if HasSymbol(group, s) && group[0].symbol != s {
      var i :| 0 <= i < |group| && group[i].symbol == s;
      assert group[1..][i - 1].symbol == s;
    }
    if HasSymbol(group[1..], s) {
      var i :| 0 <= i < |group[1..]| && group[1..][i].symbol == s;
      assert group[i + 1].symbol == s;
    }
  }

  // ------------------------------------------------------------- the open

  lemma {:induction false} FillsLeaveOthers(a: Account, fills: seq<Fill>, s: string)
    requires forall f :: f in fills ==> f.symbol != s
    ensures QtyOf(ApplyFills(a, fills).book, s) == QtyOf(a.book, s)
    decreases |fills|
  {
    if fills != [] {
      FillsLeaveOthers(ApplyFill(a, fills[0]), fills[1..], s);
    }
  }

  lemma {:induction false} FillsMoveByNet(a: Account, costs: Costs, orders: seq<Order>, b: Bar)
    requires forall o :: o in orders ==> o.symbol == b.symbol
    ensures QtyOf(ApplyFills(a, FillsOf(costs, orders, b.open, b.time)).book, b.symbol)
         == QtyOf(a.book, b.symbol) + Net(orders)
    decreases |orders|
  {
    if orders != [] {
      hide FillPrice, Notional;
      var f := FillOf(costs, orders[0], b.open, b.time);
      assert orders[0] in orders;
      assert FillsOf(costs, orders, b.open, b.time)[1..] == FillsOf(costs, orders[1..], b.open, b.time);
      FillsMoveByNet(ApplyFill(a, f), costs, orders[1..], b);
    }
  }

  lemma OpenOtherBar(d: Desk, costs: Costs, b: Bar, s: string)
    requires b.symbol != s
    ensures Held(OpenBar(d, costs, b), s) == Held(d, s)
    ensures Mine(OpenBar(d, costs, b), s) == Mine(d, s)
  {
    var hit := Filter(d.pending, OrderFor(b.symbol));
    var fills := FillsOf(costs, hit, b.open, b.time);
    forall f | f in fills ensures f.symbol != s {
      var k :| 0 <= k < |fills| && fills[k] == f;
      assert hit[k] in hit;
    }
    FillsLeaveOthers(d.account, fills, s);
    FilterFilter(d.pending, OrderNotFor(b.symbol), OrderFor(s), OrderFor(s));
  }

  lemma OpenOwnBar(d: Desk, costs: Costs, b: Bar)
    ensures Mine(OpenBar(d, costs, b), b.symbol) == []
    ensures Held(OpenBar(d, costs, b), b.symbol) == Committed(d, b.symbol)
  {
    FilterNone(Filter(d.pending, OrderNotFor(b.symbol)), OrderFor(b.symbol));
    FillsMoveByNet(d.account, costs, Mine(d, b.symbol), b);
  }

  /** The open of a group settles each of its symbols at what it was committed to, and leaves the
      others alone. */
  lemma {:induction false} OpenSettles(d: Desk, costs: Costs, group: seq<Bar>, s: string)
    requires OpensPositive(group)
    ensures var d' := OpenGroup(d, costs, group);
      if HasSymbol(group, s) then Mine(d', s) == [] && Held(d', s) == Committed(d, s)
      else Mine(d', s) == Mine(d, s) && Held(d', s) == Held(d, s)
    ensures Committed(OpenGroup(d, costs, group), s) == Committed(d, s)
    decreases |group|
  {
    if group != [] {
      hide Filter, QtyOf, OpenBar;
      var d1 := OpenBar(d, costs, group[0]);
      assert group[0].open > 0.0 && OpensPositive(group[1..]);
      HasSymbolStep(group, s);
      if group[0].symbol == s {
        OpenOwnBar(d, costs, group[0]);
        assert Net([]) == 0.0;
      } else {
        OpenOtherBar(d, costs, group[0], s);
      }
      OpenSettles(d1, costs, group[1..], s);
    }
  }

  lemma CloseKeepsQueue(w: World, d: Desk, g: seq<Bar>, s: string)
    requires g != []
    ensures Held(CloseStep(w, d, g), s) == Held(OpenGroup(d, w.rules.costs, g), s)
    ensures Mine(CloseStep(w, d, g), s) == Mine(OpenGroup(d, w.rules.costs, g), s)
  {
  }

  // ------------------------------------------------------------- the decisions

  /** Where one target sends a holding: nowhere when the gap is dust. */
  function Landing(held: real, qty: real): real {
    if Abs(qty - held) < MIN_DELTA_QTY then held else qty
  }

  /** The summed gaps from the holding of the targets for `s`. */
  function Gaps(held: real, targets: seq<Target>, s: string): real {
    if targets == [] then 0.0
    else (if targets[0].symbol == s then Landing(held, targets[0].qty) - held else 0.0) + Gaps(held, targets[1..], s)
  }

  lemma {:induction false} DeltaOrdersNet(book: Book, targets: seq<Target>, submitTime: int, orderSeq: nat, s: string)
    ensures Net(Filter(DeltaOrders(book, targets, submitTime, orderSeq), OrderFor(s))) == Gaps(QtyOf(book, s), targets, s)
    decreases |targets|
  {
    if targets != [] {
      hide QtyOf, Filter;
      var t := targets[0];
      DeltaOrderReachesTarget(book, t, submitTime, orderSeq);
      match DeltaOrder(book, t, submitTime, orderSeq)
      case None =>
        DeltaOrdersNet(book, targets[1..], submitTime, orderSeq, s);
      case Some(o) =>
        var rest := DeltaOrders(book, targets[1..], submitTime, orderSeq + 1);
        DeltaOrdersNet(book, targets[1..], submitTime, orderSeq + 1, s);
        FilterCons(o, rest, OrderFor(s));
        NetOfOne(o);
        NetAppend([o], Filter(rest, OrderFor(s)));
        assert [] + Filter(rest, OrderFor(s)) == Filter(rest, OrderFor(s));
    }
  }

  lemma QueueCommits(d: Desk, targets: seq<Target>, submitTime: int, s: string)
    ensures var d' := QueueTargets(d, targets, submitTime);
      Held(d', s) == Held(d, s) && Committed(d', s) == Committed(d, s) + Gaps(Held(d, s), targets, s)
  {
    hide Filter, DeltaOrders, QtyOf;
    var orders := DeltaOrders(d.account.book, targets, submitTime, d.account.orderSeq);
    FilterAppend(d.pending, orders, OrderFor(s));
    NetAppend(Mine(d, s), Filter(orders, OrderFor(s)));
    DeltaOrdersNet(d.account.book, targets, submitTime, d.account.orderSeq, s);
  }

  function TargetFor(s: string): Target -> bool {
    (t: Target) => t.symbol == s
  }

  lemma {:induction false} GapsOfMine(held: real, targets: seq<Target>, s: string)
    ensures Gaps(held, targets, s) == Gaps(held, Filter(targets, TargetFor(s)), s)
    decreases |targets|
  {
    if targets != [] {
      GapsOfMine(held, targets[1..], s);
      var rest := Filter(targets[1..], TargetFor(s));
      if targets[0].symbol == s {
        assert ([targets[0]] + rest)[1..] == rest;
      } else {
        assert [] + rest == rest;
      }
    }
  }

  /** A list of targets that names `s` once commits the position to that target, plus whatever was
      already queued. */
  lemma OneTargetCommits(d: Desk, targets: seq<Target>, submitTime: int, t: Target)
    requires Filter(targets, TargetFor(t.symbol)) == [t]
    ensures Committed(QueueTargets(d, targets, submitTime), t.symbol)
         == Landing(Held(d, t.symbol), t.qty) + Net(Mine(d, t.symbol))
  {
    hide Filter, Mine, Held, QueueTargets;
    QueueCommits(d, targets, submitTime, t.symbol);
    GapsOfMine(Held(d, t.symbol), targets, t.symbol);
    assert [t][1..] == [];
  }

  // ------------------------------------------------------------- one target, one open

  /** The exact tracking law: after the symbol's next open the target is met if and only if what
      was already queued for the symbol nets to nothing. */
  lemma TargetIsMetIff(d: Desk, targets: seq<Target>, submitTime: int, t: Target, costs: Costs, next: seq<Bar>)
    requires Filter(targets, TargetFor(t.symbol)) == [t]
    requires OpensPositive(next) && HasSymbol(next, t.symbol)
    ensures var after := OpenGroup(QueueTargets(d, targets, submitTime), costs, next);
      var landing := Landing(Held(d, t.symbol), t.qty);
      && Mine(after, t.symbol) == []
      && Held(after, t.symbol) == landing + Net(Mine(d, t.symbol))
      && (Held(after, t.symbol) == landing <==> Net(Mine(d, t.symbol)) == 0.0)
      && Abs(t.qty - landing) < MIN_DELTA_QTY
  {
    hide Filter, QueueTargets, OpenGroup, Mine, Held;
    OneTargetCommits(d, targets, submitTime, t);
    OpenSettles(QueueTargets(d, targets, submitTime), costs, next, t.symbol);
  }

  /** Named again before its symbol's next open, a target is overshot by its whole gap. */
  lemma RepeatedTargetOvershoots(d: Desk, t: Target, first: int, second: int, costs: Costs, next: seq<Bar>)
    requires Mine(d, t.symbol) == [] && Abs(t.qty - Held(d, t.symbol)) >= MIN_DELTA_QTY
    requires OpensPositive(next) && HasSymbol(next, t.symbol)
    ensures Held(OpenGroup(QueueTargets(QueueTargets(d, [t], first), [t], second), costs, next), t.symbol)
         == t.qty + (t.qty - Held(d, t.symbol))
  {
    var once := QueueTargets(d, [t], first);
    hide QueueTargets, OpenGroup, Mine, Held;
    assert Filter([t], TargetFor(t.symbol)) == [t];
    QueueCommits(d, [t], first, t.symbol);
    OneTargetCommits(d, [t], first, t);
    TargetIsMetIff(once, [t], second, t, costs, next);
  }

  // ------------------------------------------------------------- whole runs

  function Allowed<S>(r: Replay<S>, strategy: Strategy<S>, view: View, b: Bar): seq<Target> {
    GateTargets(r.desk.risk, strategy(r.mind, b, view, TakeSnapshot(r.desk.account, r.desk.marks)).1)
  }

  /** Where the last decision that named the symbol sent it, and what was queued for it then. */
  datatype Track = Track(landing: real, ahead: real)

  function Followed(t: Track, d: Desk, allowed: seq<Target>, s: string): Track {
    var mine := Filter(allowed, TargetFor(s));
    if mine == [] then t else Track(Landing(Held(d, s), mine[0].qty), Net(Mine(d, s)))
  }

  function TrackAfterGroup<S>(
      t: Track, r: Replay<S>, strategy: Strategy<S>, view: View, group: seq<Bar>, s: string): Track
    decreases |group|
  {
    if group == [] then t
    else
      TrackAfterGroup(Followed(t, r.desk, Allowed(r, strategy, view, group[0]), s),
                      DecideBar(r, strategy, view, group[0]), strategy, view, group[1..], s)
  }

  function TrackAfterRun<S>(
      t: Track, w: World, strategy: Strategy<S>, r: Replay<S>, groups: seq<seq<Bar>>, s: string): Track
    requires NonEmptyGroups(groups)
    decreases |groups|
  {
    if groups == [] then t
    else
      var g := groups[0];
      TrackAfterRun(TrackAfterGroup(t, Closed(w, r, g), strategy, View(w.bars, g[0].time + w.step), g, s),
                    w, strategy, StepGroup(w, strategy, r, g), groups[1..], s)
  }

  /** A strategy names no symbol twice in one answer; it may name any symbols on any bar. */
  ghost predicate NamesOnce<S(!new)>(strategy: Strategy<S>) {
    forall mind: S, b: Bar, v: View, p: Snapshot, s: string ::
      |Filter(strategy(mind, b, v, p).1, TargetFor(s))| <= 1
  }

  lemma {:induction false} FilterShrinks<T>(xs: seq<T>, p: T -> bool, q: T -> bool)
    ensures |Filter(Filter(xs, p), q)| <= |Filter(xs, q)|
    decreases |xs|
  {
    if xs != [] {
      FilterShrinks(xs[1..], p, q);
      if p(xs[0]) {
        FilterCons(xs[0], Filter(xs[1..], p), q);
      } else {
        assert [] + Filter(xs[1..], p) == Filter(xs[1..], p);
      }
    }
  }

  lemma AllowedOnce<S(!new)>(r: Replay<S>, strategy: Strategy<S>, view: View, b: Bar, s: string)
    requires NamesOnce(strategy)
    ensures |Filter(Allowed(r, strategy, view, b), TargetFor(s))| <= 1
  {
    FilterShrinks(strategy(r.mind, b, view, TakeSnapshot(r.desk.account, r.desk.marks)).1, IsFlat(), TargetFor(s));
  }

  lemma DecisionFollows(d: Desk, t: Track, allowed: seq<Target>, submitTime: int, s: string)
    requires |Filter(allowed, TargetFor(s))| <= 1
    requires Committed(d, s) == t.landing + t.ahead
    ensures var t' := Followed(t, d, allowed, s);
      Committed(QueueTargets(d, allowed, submitTime), s) == t'.landing + t'.ahead
  {
    hide Filter, QueueTargets, Held, Mine;
    var mine := Filter(allowed, TargetFor(s));
    if mine == [] {
      QueueCommits(d, allowed, submitTime, s);
      GapsOfMine(Held(d, s), allowed, s);
    } else {
      assert mine == [mine[0]] && mine[0] in mine && TargetFor(s)(mine[0]);
      OneTargetCommits(d, allowed, submitTime, mine[0]);
    }
  }

  lemma {:induction false} DecisionsFollow<S(!new)>(
      t: Track, r: Replay<S>, strategy: Strategy<S>, view: View, group: seq<Bar>, s: string)
    requires NamesOnce(strategy) && Committed(r.desk, s) == t.landing + t.ahead
    ensures var t' := TrackAfterGroup(t, r, strategy, view, group, s);
      Committed(DecideGroup(r, strategy, view, group).desk, s) == t'.landing + t'.ahead
    decreases |group|
  {
    if group != [] {
      hide NamesOnce, Committed, Followed, QueueTargets, Filter;
      var allowed := Allowed(r, strategy, view, group[0]);
      AllowedOnce(r, strategy, view, group[0], s);
      DecisionFollows(r.desk, t, allowed, view.now, s);
      DecisionsFollow(Followed(t, r.desk, allowed, s), DecideBar(r, strategy, view, group[0]), strategy, view, group[1..], s);
    }
  }

  lemma CloseCommits(w: World, d: Desk, g: seq<Bar>, s: string)
    requires g != [] && OpensPositive(g)
    ensures Committed(CloseStep(w, d, g), s) == Committed(d, s)
    ensures HasSymbol(g, s) ==> Mine(CloseStep(w, d, g), s) == [] && Held(CloseStep(w, d, g), s) == Committed(d, s)
  {
    hide CloseStep, OpenGroup, Filter, QtyOf;
    OpenSettles(d, w.rules.costs, g, s);
    CloseKeepsQueue(w, d, g, s);
  }

  lemma {:induction false} RunFollows<S(!new)>(
      t: Track, w: World, strategy: Strategy<S>, r: Replay<S>, groups: seq<seq<Bar>>, s: string)
    requires NonEmptyGroups(groups) && NamesOnce(strategy) && Committed(r.desk, s) == t.landing + t.ahead
    requires RunGroups(w, strategy, r, groups).Success?
    ensures var t' := TrackAfterRun(t, w, strategy, r, groups, s);
      Committed(RunGroups(w, strategy, r, groups).value.desk, s) == t'.landing + t'.ahead
    decreases |groups|
  {
    hide CloseStep, Committed, DecideGroup, TrackAfterGroup, NamesOnce, OpensPositive;
    if groups != [] {
      var g := groups[0];
      var view := View(w.bars, g[0].time + w.step);
      CloseCommits(w, r.desk, g, s);
      DecisionsFollow(t, Closed(w, r, g), strategy, view, g, s);
      RunFollows(TrackAfterGroup(t, Closed(w, r, g), strategy, view, g, s), w, strategy, StepGroup(w, strategy, r, g), groups[1..], s);
    }
  }

  /** After any run of any strategy that names a symbol at most once per answer, the symbol's next
      open takes its position to where the last decision naming it sent it, off by exactly what
      was queued at that decision: the last target is met if and only if that netted to nothing. */
  lemma LastTargetIsMetIff<S(!new)>(
      w: World, strategy: Strategy<S>, initialEquity: real, risk: RiskState, mind: S, start: int,
      groups: seq<seq<Bar>>, next: seq<Bar>, s: string)
    requires NonEmptyGroups(groups) && NamesOnce(strategy)
    requires next != [] && OpensPositive(next) && HasSymbol(next, s)
    requires RunGroups(w, strategy, Start(initialEquity, risk, mind, start), groups).Success?
    ensures var r := Start(initialEquity, risk, mind, start);
      var after := CloseStep(w, RunGroups(w, strategy, r, groups).value.desk, next);
      var t := TrackAfterRun(Track(0.0, 0.0), w, strategy, r, groups, s);
      && Mine(after, s) == [] && Held(after, s) == t.landing + t.ahead
      && (Held(after, s) == t.landing <==> t.ahead == 0.0)
  {
    hide CloseStep, TrackAfterRun, NamesOnce, RunGroups;
    var r := Start(initialEquity, risk, mind, start);
    assert Committed(r.desk, s) == 0.0;
    RunFollows(Track(0.0, 0.0), w, strategy, r, groups, s);
    CloseCommits(w, RunGroups(w, strategy, r, groups).value.desk, next, s);
  }
}
