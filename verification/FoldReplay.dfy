/** One walk-forward fold: its test replay starts early enough to warm the features up and no
    earlier than its first decision may count (wfo/model_runner.py `_backtest_fold`). */
module FoldReplay {
  import opened Collections
  import opened Market
  import opened Timeline
  import opened Source
  import opened Oms
  import opened Venue
  import opened Risk
  import opened Desk
  import opened Backtest
  import opened Strategies
  import opened TrainServe
  import opened Splitter
  import opened PaperState
  import opened PaperRefinement
  import opened Folds

  /** The fold's strategy: the model-driven rule of one bundle. */
  ghost predicate Drives(strategy: Strategy<()>, u: Bundle)
    requires BundleOk(u)
  {
    forall b: Bar, v: View, s: Snapshot :: strategy((), b, v, s) == ((), OnBar(u, b, v, s))
  }

  /** The bars the fold replays. */
  function ReplayBars(u: Bundle, split: Split, sorted: seq<Bar>): seq<Bar>
    requires 0 <= split.testEnd
  {
    Slice(sorted, WarmupStart(u.features, split), split.testEnd)
  }

  ghost predicate FoldOk(u: Bundle, split: Split, sorted: seq<Bar>) {
    && BundleOk(u) && (forall i :: 0 <= i < |u.features| ==> Contract(u.features[i]))
    && OneStream(sorted, u.symbol, u.interval)
    && 0 <= split.testStart < split.testEnd <= |sorted|
  }

  // ------------------------------------------------------------- features over the slice

  lemma SliceIsStream(bars: seq<Bar>, symbol: string, interval: Interval, lo: nat, hi: nat)
    requires OneStream(bars, symbol, interval) && lo <= hi <= |bars|
    ensures OneStream(Slice(bars, lo, hi), symbol, interval)
    ensures |Slice(bars, lo, hi)| == hi - lo
    ensures forall i :: 0 <= i < hi - lo ==> Slice(bars, lo, hi)[i] == bars[lo + i]
  {
  }

  lemma {:induction false} LookbackAtMost(features: seq<Feature>, i: nat)
    requires i < |features|
    ensures features[i].lookback <= MaxLookback(features)
  {
    var n := |features| - 1;
    if i < n {
      LookbackAtMost(features[..n], i);
    }
  }

  lemma {:induction false} LookbackAttained(features: seq<Feature>) returns (i: nat)
    requires features != []
    ensures i < |features| && features[i].lookback == MaxLookback(features)
  {
    var n := |features| - 1;
    if features[n].lookback >= MaxLookback(features[..n]) {
      i := n;
    } else {
      i := LookbackAttained(features[..n]);
    }
  }

  lemma TailOfSlice(bars: seq<Bar>, w: nat, k: nat, n: nat)
    requires w <= k < |bars| && (w == 0 || k + 1 - n >= w)
    ensures LastN(bars[w..k + 1], n) == LastN(bars[..k + 1], n)
  {
  }

  /** A history query over a slice that reaches back far enough is the whole timeline's. */
  lemma SliceHistory(bars: seq<Bar>, symbol: string, interval: Interval, w: nat, hi: nat, k: nat, n: nat)
    requires OneStream(bars, symbol, interval) && w <= k < hi <= |bars| && n > 0
    requires w == 0 || k + 1 - n >= w
    ensures History(View(Slice(bars, w, hi), bars[k].time + StepOf(interval)), symbol, interval, n) == LastN(bars[..k + 1], n)
  {
    hide History, LastN, OneStream;
    SliceIsStream(bars, symbol, interval, w, hi);
    var slice := Slice(bars, w, hi);
    HistoryAtClose(slice, symbol, interval, k - w, n);
    assert slice[..k - w + 1] == bars[w..k + 1];
    TailOfSlice(bars, w, k, n);
  }

  /** From one bar before the test window on, every feature value over the replayed slice is the
      value over the whole timeline: the warm-up loses nothing. */
  lemma WarmupSuffices(u: Bundle, split: Split, sorted: seq<Bar>, k: nat, i: nat)
    requires FoldOk(u, split, sorted) && i < |u.features|
    requires split.testStart - 1 <= k < split.testEnd && WarmupStart(u.features, split) <= k
    ensures var f := u.features[i];
      OnlineValue(f, u.symbol, u.interval, View(ReplayBars(u, split, sorted), sorted[k].time + StepOf(u.interval)))
      == ValueAt(f, sorted, k)
  {
    hide MaxLookback, History, Slice, Contract, StrictlyTimeOrdered;
    var f := u.features[i];
    LookbackAtMost(u.features, i);
    SliceHistory(sorted, u.symbol, u.interval, WarmupStart(u.features, split), split.testEnd, k, f.lookback);
    HistoryAtClose(sorted, u.symbol, u.interval, k, f.lookback);
    LiveIsOffline(f, sorted, u.symbol, u.interval, k);
  }

  // ------------------------------------------------------------- the warm-up is silent

  /** The rule names no target, whatever the portfolio. */
  ghost predicate Silent(u: Bundle, b: Bar, v: View)
    requires BundleOk(u)
  {
    forall s: Snapshot :: OnBar(u, b, v, s) == []
  }

  /** The source as a decision on `b` sees it. */
  function ViewAt(w: World, b: Bar): View {
    View(w.bars, b.time + w.step)
  }

  lemma UndefinedBelow(f: Feature, h: seq<Bar>)
    requires Contract(f) && |h| < f.lookback
    ensures LastN(h, f.lookback) == h && f.compute(h) == None
  {
  }

  /** Too few bars for the longest feature: no vector, so no target. */
  lemma SilentBelowLookback(u: Bundle, bars: seq<Bar>, k: nat, b: Bar)
    requires BundleOk(u) && (forall i :: 0 <= i < |u.features| ==> Contract(u.features[i]))
    requires OneStream(bars, u.symbol, u.interval) && k < |bars| && k + 1 < MaxLookback(u.features)
    ensures Silent(u, b, View(bars, bars[k].time + StepOf(u.interval)))
  {
    hide MaxLookback, History, StrictlyTimeOrdered, Contract, TargetQty, ProbsOf;
    var v := View(bars, bars[k].time + StepOf(u.interval));
    var i := LookbackAttained(u.features);
    var f := u.features[i];
    UndefinedBelow(f, bars[..k + 1]);
    HistoryAtClose(bars, u.symbol, u.interval, k, f.lookback);
    assert OnlineValue(f, u.symbol, u.interval, v) == None;
    VectorDefinedIff(u.features, u.symbol, u.interval, v);
  }

  // ------------------------------------------------------------- one bar per group

  /** What one single-bar group does to the fills and the queue. */
  lemma SingleStep(w: World, strategy: Strategy<()>, r: Replay<()>, b: Bar)
    requires b.open > 0.0
    ensures var r' := StepGroup(w, strategy, r, [b]);
      && (forall f :: f in r'.desk.account.fills ==> f in r.desk.account.fills || f.time == b.time)
      && (r.desk.pending == [] ==> r'.desk.account.fills == r.desk.account.fills)
  {
    hide FillOf, RiskUpdate, DeltaOrders, GateTargets, MarkGroup, HeldValue;
    var hit := Filter(r.desk.pending, OrderFor(b.symbol));
    var fills := FillsOf(w.rules.costs, hit, b.open, b.time);
    ApplyFillsHistory(r.desk.account, fills);
    FillTimes(w.rules.costs, hit, b);
    OpenOne(r.desk, w.rules.costs, b);
    var closed := Closed(w, r, [b]);
    assert closed.desk.account.fills == r.desk.account.fills + fills;
    DecideOne(closed, strategy, View(w.bars, b.time + w.step), b);
  }

  lemma OpenOne(d: Desk, costs: Costs, b: Bar)
    requires b.open > 0.0
    ensures OpenGroup(d, costs, [b]) == OpenBar(d, costs, b)
  {
    hide OpenBar;
    assert [b][1..] == [];
  }

  lemma DecideOne(r: Replay<()>, strategy: Strategy<()>, view: View, b: Bar)
    ensures DecideGroup(r, strategy, view, [b]) == DecideBar(r, strategy, view, b)
    ensures DecideBar(r, strategy, view, b).desk.account.fills == r.desk.account.fills
  {
    hide DeltaOrders, GateTargets;
    assert [b][1..] == [];
  }

  lemma FillTimes(costs: Costs, hit: seq<Order>, b: Bar)
    ensures forall f :: f in FillsOf(costs, hit, b.open, b.time) ==> f.time == b.time
    ensures hit == [] ==> FillsOf(costs, hit, b.open, b.time) == []
  {
    var fills := FillsOf(costs, hit, b.open, b.time);
    forall f | f in fills ensures f.time == b.time {
      var k :| 0 <= k < |fills| && fills[k] == f;
    }
  }

  /** With no target the queue only drains. */
  lemma SilentStep(w: World, strategy: Strategy<()>, u: Bundle, r: Replay<()>, b: Bar)
    requires BundleOk(u) && Drives(strategy, u) && b.open > 0.0 && r.desk.pending == []
    requires Silent(u, b, ViewAt(w, b))
    ensures StepGroup(w, strategy, r, [b]).desk.pending == []
  {
    hide FillOf, RiskUpdate, OnBar, MarkGroup, HeldValue;
    OpenOne(r.desk, w.rules.costs, b);
    var closed := Closed(w, r, [b]);
    var v := View(w.bars, b.time + w.step);
    DecideOne(closed, strategy, v, b);
    var s := TakeSnapshot(closed.desk.account, closed.desk.marks);
    assert closed.mind == ();
    assert strategy((), b, v, s) == ((), OnBar(u, b, v, s));
    assert GateTargets(closed.desk.risk, []) == [];
    NothingQueued(closed.desk, v.now);
  }

  // ------------------------------------------------------------- the replay

  lemma RunFromBar(w: World, strategy: Strategy<()>, r: Replay<()>, bars: seq<Bar>, i: nat)
    requires StrictlyTimeOrdered(bars) && i < |bars|
    requires RunGroups(w, strategy, r, Groups(bars[i..])).Success?
    ensures bars[i].open > 0.0
    ensures RunGroups(w, strategy, r, Groups(bars[i..]))
         == RunGroups(w, strategy, StepGroup(w, strategy, r, [bars[i]]), Groups(bars[i + 1..]))
  {
    hide StepGroup;
    SingleGroup(bars, i);
    RunFirst(w, strategy, r, [bars[i]], Groups(bars[i + 1..]));
    assert bars[i] in [bars[i]];
  }

  /** From bar `i` of the replay: as long as bars before the last warm-up one are silent and the
      queue enters the rest empty, nothing fills before bar `q`. */
  lemma {:induction false} NoFillBefore(
      w: World, strategy: Strategy<()>, u: Bundle, r: Replay<()>, bars: seq<Bar>, q: nat, i: nat)
    requires BundleOk(u) && Drives(strategy, u)
    requires StrictlyTimeOrdered(bars) && q < |bars| && i <= |bars|
    requires forall k :: 0 <= k < q - 1 ==> Silent(u, bars[k], ViewAt(w, bars[k]))
    requires i < q ==> r.desk.pending == []
    requires forall f :: f in r.desk.account.fills ==> f.time >= bars[q].time
    requires RunGroups(w, strategy, r, Groups(bars[i..])).Success?
    ensures forall f :: f in RunGroups(w, strategy, r, Groups(bars[i..])).value.desk.account.fills ==> f.time >= bars[q].time
    decreases |bars| - i
  {
    hide StepGroup, OnBar, Silent, Groups;
    if i == |bars| {
      NoGroupsLeft(bars);
    } else {
      var b := bars[i];
      RunFromBar(w, strategy, r, bars, i);
      SingleStep(w, strategy, r, b);
      if i + 1 < q {
        SilentStep(w, strategy, u, r, b);
      }
      assert i >= q ==> bars[i].time >= bars[q].time;
      NoFillBefore(w, strategy, u, StepGroup(w, strategy, r, [b]), bars, q, i + 1);
    }
  }

  /** Test-window purity: the replay of a fold, started at its warm-up bar, fills nothing before
      the first test bar, so its fills belong to the test window alone. */
  lemma TestWindowPure(
      u: Bundle, split: Split, sorted: seq<Bar>, strategy: Strategy<()>, rules: Rules, config: Config, risk: RiskState)
    requires FoldOk(u, split, sorted) && Drives(strategy, u)
    ensures var bars := ReplayBars(u, split, sorted);
      bars != [] &&
      var outcome := BacktestOutcome(config, World(rules, StepOf(u.interval), bars), strategy, risk, (), bars[0].time);
      outcome.Success? ==> forall f :: f in outcome.value.fills ==> f.time >= sorted[split.testStart].time
  {
    hide MaxLookback, OnBar, RunGroups, Contract, Slice, Silent, Groups;
    var w := WarmupStart(u.features, split);
    SliceIsStream(sorted, u.symbol, u.interval, w, split.testEnd);
    var bars := ReplayBars(u, split, sorted);
    var world := World(rules, StepOf(u.interval), bars);
    var start := Start(config.initialEquity, risk, (), bars[0].time);
    var q := split.testStart - w;
    if BacktestOutcome(config, world, strategy, risk, (), bars[0].time).Success? {
      forall k | 0 <= k < q - 1 ensures Silent(u, bars[k], ViewAt(world, bars[k])) {
        SilentBelowLookback(u, bars, k, bars[k]);
      }
      assert bars[0..] == bars;
      NoFillBefore(world, strategy, u, start, bars, q, 0);
    }
  }
}
