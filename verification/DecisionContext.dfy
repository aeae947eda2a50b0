/** What a strategy is shown when it is asked: the replay decides each bar at that bar's close, with
    the bar itself as the newest of its symbol and the portfolio marked there (mre/backtest.py). */
module DecisionContext {
  import opened Collections
  import opened Market
  import opened Timeline
  import opened Source
  import opened Oms
  import opened Venue
  import opened Risk
  import opened Desk
  import opened Backtest
  import opened ReplaySafety
  import opened Valuation

  ghost predicate ShownAtClose(b: Bar, v: View, p: Snapshot) {
    && v.now == b.time + StepOf(b.interval)
    && History(v, b.symbol, b.interval, 1) == [b]
    && b.symbol in p.marks && p.marks[b.symbol] == b.close
  }

  /** Two strategies that may differ anywhere but there. */
  ghost predicate AgreeAtClose<S(!new)>(f: Strategy<S>, h: Strategy<S>) {
    forall mind: S, b: Bar, v: View, p: Snapshot ::
      ShownAtClose(b, v, p) ==> f(mind, b, v, p) == h(mind, b, v, p)
  }

  /** No two different bars of a symbol at one time, and one bar length. */
  ghost predicate OneBarEach(bars: seq<Bar>, interval: Interval) {
    && (forall b :: b in bars ==> b.interval == interval)
    && forall x, y :: x in bars && y in bars && x.symbol == y.symbol && x.time == y.time ==> x == y
  }

  lemma NewestIsIt(w: World, interval: Interval, b: Bar)
    requires SortedBy(w.bars, ReplayLeq) && OneBarEach(w.bars, interval) && b in w.bars
    ensures History(View(w.bars, b.time + StepOf(interval)), b.symbol, interval, 1) == [b]
  {
    hide History, StepOf, Filter;
    var now := b.time + StepOf(interval);
    HistoryFromClosed(View(w.bars, now), b.symbol, interval, 1);
    var mine := Filter(w.bars, ClosedOf(b.symbol, interval, now));
    FilterKeeps(w.bars, ClosedOf(b.symbol, interval, now), b);
    FilterSorted(w.bars, ReplayLeq, ClosedOf(b.symbol, interval, now));
    var k :| 0 <= k < |mine| && mine[k] == b;
    var last := mine[|mine| - 1];
    assert last in mine && ClosedOf(b.symbol, interval, now)(last);
    assert k < |mine| - 1 ==> ReplayLeq(mine[k], last);
    assert LastN(mine, 1) == [last];
  }

  lemma {:induction false} LastCloseIn(bars: seq<Bar>, s: string)
    requires exists b :: b in bars && b.symbol == s
    ensures exists b :: b in bars && b.symbol == s && LastClose(bars, s) == Some(b.close)
  {
    var n := |bars| - 1;
    if bars[n].symbol == s {
      assert bars[n] in bars;
    } else {
      var b :| b in bars && b.symbol == s;
      assert b in bars[..n];
      LastCloseIn(bars[..n], s);
      var x :| x in bars[..n] && x.symbol == s && LastClose(bars[..n], s) == Some(x.close);
      assert x in bars;
    }
  }

  lemma GroupIsShown(w: World, interval: Interval, d: Desk, g: seq<Bar>, b: Bar)
    requires SortedBy(w.bars, ReplayLeq) && OneBarEach(w.bars, interval) && w.step == StepOf(interval)
    requires g != [] && SameTime(g) && (forall x :: x in g ==> x in w.bars) && b in g
    ensures var d' := CloseStep(w, d, g);
      ShownAtClose(b, View(w.bars, g[0].time + w.step), TakeSnapshot(d'.account, d'.marks))
  {
    hide History, StepOf, SortedBy, OpenGroup, MarkGroup, LastClose, HeldValue;
    NewestIsIt(w, interval, b);
    OpenKeepsRecord(d, w.rules.costs, g);
    MarkedAtCloses(d.marks, g, b.symbol);
    LastCloseIn(g, b.symbol);
    var x :| x in g && x.symbol == b.symbol && LastClose(g, b.symbol) == Some(x.close);
    assert x == b;
  }

  lemma {:induction false} SameAnswers<S(!new)>(
      r: Replay<S>, f: Strategy<S>, h: Strategy<S>, view: View, group: seq<Bar>)
    requires AgreeAtClose(f, h)
    requires forall b :: b in group ==> ShownAtClose(b, view, TakeSnapshot(r.desk.account, r.desk.marks))
    ensures DecideGroup(r, f, view, group) == DecideGroup(r, h, view, group)
    decreases |group|
  {
    if group != [] {
      hide QueueTargets, History;
      assert group[0] in group;
      var d := DecideBar(r, f, view, group[0]);
      assert d == DecideBar(r, h, view, group[0]);
      StillShown(r, f, view, group);
      SameAnswers(d, f, h, view, group[1..]);
    }
  }

  lemma StillShown<S>(r: Replay<S>, f: Strategy<S>, view: View, group: seq<Bar>)
    requires group != []
    requires forall b :: b in group ==> ShownAtClose(b, view, TakeSnapshot(r.desk.account, r.desk.marks))
    ensures var d := DecideBar(r, f, view, group[0]).desk;
      forall b :: b in group[1..] ==> ShownAtClose(b, view, TakeSnapshot(d.account, d.marks))
  {
    hide History, DeltaOrders;
    var d := DecideBar(r, f, view, group[0]).desk;
    forall b | b in group[1..] ensures ShownAtClose(b, view, TakeSnapshot(d.account, d.marks)) {
      assert b in group && d.marks == r.desk.marks;
      assert ShownAtClose(b, view, TakeSnapshot(r.desk.account, r.desk.marks));
    }
  }

  lemma StepAsksAtClose<S(!new)>(
      w: World, interval: Interval, f: Strategy<S>, h: Strategy<S>, r: Replay<S>, g: seq<Bar>)
    requires SortedBy(w.bars, ReplayLeq) && OneBarEach(w.bars, interval) && w.step == StepOf(interval)
    requires g != [] && SameTime(g) && (forall b :: b in g ==> b in w.bars) && AgreeAtClose(f, h)
    ensures StepGroup(w, f, r, g) == StepGroup(w, h, r, g)
  {
    hide CloseStep, DecideGroup, StepOf, SortedBy, OneBarEach, AgreeAtClose, ShownAtClose;
    var view, d := View(w.bars, g[0].time + w.step), CloseStep(w, r.desk, g);
    forall b | b in g ensures ShownAtClose(b, view, TakeSnapshot(d.account, d.marks)) {
      GroupIsShown(w, interval, r.desk, g, b);
    }
    SameAnswers(Closed(w, r, g), f, h, view, g);
  }

  lemma {:induction false} AskedAtCloses<S(!new)>(
      w: World, interval: Interval, f: Strategy<S>, h: Strategy<S>, r: Replay<S>, groups: seq<seq<Bar>>)
    requires SortedBy(w.bars, ReplayLeq) && OneBarEach(w.bars, interval) && w.step == StepOf(interval)
    requires UniformGroups(groups) && NonEmptyGroups(groups) && AgreeAtClose(f, h)
    requires forall i, b :: 0 <= i < |groups| && b in groups[i] ==> b in w.bars
    ensures RunGroups(w, f, r, groups) == RunGroups(w, h, r, groups)
    decreases |groups|
  {
    if groups != [] {
      hide StepGroup, StepOf, SortedBy, OneBarEach, AgreeAtClose, OpensPositive;
      var g := groups[0];
      forall b | b in g ensures b in w.bars {
        assert b in groups[0];
      }
      StepAsksAtClose(w, interval, f, h, r, g);
      AskedAtCloses(w, interval, f, h, StepGroup(w, f, r, g), groups[1..]);
    }
  }

  /** Over one interval with at most one bar per symbol and time, a backtest depends on what its
      strategy answers at closes alone: asked about a bar at that bar's close, with the bar as the
      newest closed one of its symbol and the symbol marked at its close. */
  lemma BacktestAsksAtCloses<S(!new)>(
      config: Config, rules: Rules, interval: Interval, bars: seq<Bar>, f: Strategy<S>, h: Strategy<S>,
      risk: RiskState, mind: S, start: int)
    requires OneBarEach(bars, interval) && AgreeAtClose(f, h)
    ensures var w := World(rules, StepOf(interval), ReplaySort(bars));
      BacktestOutcome(config, w, f, risk, mind, start) == BacktestOutcome(config, w, h, risk, mind, start)
  {
    hide RunGroups, StepOf, AgreeAtClose, Groups;
    var w := World(rules, StepOf(interval), ReplaySort(bars));
    ReplaySortOrdered(bars);
    GroupsAreUniform(w.bars);
    GroupsWithin(w.bars);
    AskedAtCloses(w, interval, f, h, Start(config.initialEquity, risk, mind, start), Groups(w.bars));
  }
}
