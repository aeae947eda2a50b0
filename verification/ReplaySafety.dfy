/** Whole-run facts about the replay: when it completes, that it never looks ahead, that every
    order is filled at most once and only after it was decided, and what its halts mean. */
module ReplaySafety {
  import opened Collections
  import opened Market
  import opened Timeline
  import opened Source
  import opened Oms
  import opened Venue
  import opened Risk
  import opened Desk
  import opened Backtest

  // ------------------------------------------------------------- when a run completes

  /** A run over ordered bars completes exactly on replayable bars, whatever the strategy does. */
  lemma {:induction false} RunCompletesIff<S>(w: World, strategy: Strategy<S>, r: Replay<S>, bars: seq<Bar>)
    requires TimeOrdered(bars) && w.step > 0
    ensures RunGroups(w, strategy, r, Groups(bars)).Success? <==> Replayable(bars, r.now, w.step)
    decreases |bars|
  {
    if bars != [] {
      hide StepGroup, Replayable;
      var n := LeadingRun(bars);
      var g, rest := bars[..n], bars[n..];
      FirstGroup(bars);
      ReplayableSplit(bars, n, r.now, w.step);
      RunFirst(w, strategy, r, g, Groups(rest));
      if r.now <= g[0].time && OpensPositive(g) {
        StepSetsClock(w, strategy, r, g);
        RunCompletesIff(w, strategy, StepGroup(w, strategy, r, g), rest);
      }
    }
  }

  lemma StepSetsClock<S>(w: World, strategy: Strategy<S>, r: Replay<S>, g: seq<Bar>)
    requires g != []
    ensures StepGroup(w, strategy, r, g).now == g[0].time + w.step
  {
    var close := g[0].time + w.step;
    DecideKeepsClock(Closed(w, r, g), strategy, View(w.bars, close), g);
  }

  lemma ReplayableSplit(bars: seq<Bar>, n: nat, start: int, step: int)
    requires bars != [] && TimeOrdered(bars) && step > 0 && n == LeadingRun(bars)
    ensures Replayable(bars, start, step)
      <==> start <= bars[0].time && OpensPositive(bars[..n]) && Replayable(bars[n..], bars[0].time + step, step)
  {
    var g, rest := bars[..n], bars[n..];
    assert bars == g + rest;
    assert bars[0] in bars;
    LeadingRunTimes(bars);
    if Replayable(bars, start, step) {
      RestIsLater(bars, n, step);
    }
    if start <= bars[0].time && OpensPositive(g) && Replayable(rest, bars[0].time + step, step) {
      SpacedJoin(bars, n, step);
    }
  }

  lemma {:induction false} DecideKeepsClock<S>(r: Replay<S>, strategy: Strategy<S>, view: View, group: seq<Bar>)
    ensures var r' := DecideGroup(r, strategy, view, group);
      && r'.now == r.now && r'.desk.risk == r.desk.risk && r'.desk.marks == r.desk.marks
      && r'.desk.account == r.desk.account.(orderSeq := r'.desk.account.orderSeq)
      && r.desk.pending <= r'.desk.pending
    decreases |group|
  {
    if group != [] {
      DecideKeepsClock(DecideBar(r, strategy, view, group[0]), strategy, view, group[1..]);
    }
  }

  /** `run_backtest` returns a report exactly for valid settings and replayable bars; in
      particular it never fails because of what the strategy decided. */
  lemma BacktestCompletesIff<S>(
      config: Config, rules: Rules, interval: Interval, bars: seq<Bar>, strategy: Strategy<S>,
      risk: RiskState, mind: S, start: int)
    ensures BacktestOutcome(config, World(rules, StepOf(interval), ReplaySort(bars)), strategy, risk, mind, start).Success?
      <==> config.feeBps >= 0.0 && config.slippageBps >= 0.0 && config.initialEquity > 0.0
           && Replayable(ReplaySort(bars), start, StepOf(interval))
  {
    ReplaySortOrdered(bars);
    RunCompletesIff(World(rules, StepOf(interval), ReplaySort(bars)), strategy,
                    Start(config.initialEquity, risk, mind, start), ReplaySort(bars));
  }

  // ------------------------------------------------------------- composition of runs

  lemma {:induction false} RunAppend<S>(
      w: World, strategy: Strategy<S>, r: Replay<S>, xs: seq<seq<Bar>>, ys: seq<seq<Bar>>)
    requires NonEmptyGroups(xs) && NonEmptyGroups(ys)
    ensures NonEmptyGroups(xs + ys)
    ensures RunGroups(w, strategy, r, xs + ys) ==
      match RunGroups(w, strategy, r, xs)
      case Success(m) => RunGroups(w, strategy, m, ys)
      case Failure(e) => Failure(e)
    decreases |xs|
  {
    if xs == [] {
      assert xs + ys == ys;
    } else {
      assert (xs + ys)[1..] == xs[1..] + ys;
      assert NonEmptyGroups(xs[1..]);
      RunAppend(w, strategy, StepGroup(w, strategy, r, xs[0]), xs[1..], ys);
    }
  }

  // ------------------------------------------------------------- no look-ahead

  /** A strategy that reads the source only through `history` and `latest`. */
  ghost predicate PointInTime<S(!new)>(strategy: Strategy<S>) {
    forall mind: S, b: Bar, v: View, w: View, p: Snapshot ::
      SameHistory(v, w) ==> strategy(mind, b, v, p) == strategy(mind, b, w, p)
  }

  function FillUpTo(t: int): Fill -> bool {
    (f: Fill) => f.time <= t
  }

  function PointUpTo(t: int): EquityPoint -> bool {
    (p: EquityPoint) => p.time <= t
  }

  function ClosedOf(symbol: string, interval: Interval, now: int): Bar -> bool {
    (b: Bar) => b.symbol == symbol && b.interval == interval && b.time + StepOf(interval) <= now
  }

  lemma HistoryFromClosed(v: View, symbol: string, interval: Interval, n: nat)
    requires n > 0
    ensures History(v, symbol, interval, n) == LastN(Filter(v.bars, ClosedOf(symbol, interval, v.now)), n)
  {
    FilterFilter(v.bars, HasKey(symbol, interval), ClosedBy(StepOf(interval), v.now),
                 ClosedOf(symbol, interval, v.now));
  }

  /** History at a close no later than that of the bars of time `t` sees nothing after `t`. */
  lemma HistoryIgnoresFuture(bars: seq<Bar>, interval: Interval, t: int, now: int)
    requires forall b :: b in bars ==> b.interval == interval
    requires now <= t + StepOf(interval)
    ensures SameHistory(View(bars, now), View(Filter(bars, UpTo(t)), now))
  {
    forall symbol, iv: Interval, n: nat | n > 0
      ensures History(View(bars, now), symbol, iv, n) == History(View(Filter(bars, UpTo(t)), now), symbol, iv, n)
    {
      HistoryFromClosed(View(bars, now), symbol, iv, n);
      HistoryFromClosed(View(Filter(bars, UpTo(t)), now), symbol, iv, n);
      FilterFilter(bars, UpTo(t), ClosedOf(symbol, iv, now), ClosedOf(symbol, iv, now));
    }
  }

  lemma {:induction false} SameDecisions<S(!new)>(
      r: Replay<S>, strategy: Strategy<S>, v: View, w: View, group: seq<Bar>)
    requires PointInTime(strategy) && SameHistory(v, w)
    ensures DecideGroup(r, strategy, v, group) == DecideGroup(r, strategy, w, group)
    decreases |group|
  {
    if group != [] {
      var d := DecideBar(r, strategy, v, group[0]);
      assert d == DecideBar(r, strategy, w, group[0]);
      SameDecisions(d, strategy, v, w, group[1..]);
    }
  }

  /** Two worlds no history call can tell apart up to the close of `t` run alike on groups up to `t`. */
  lemma {:induction false} SamePrefixRun<S(!new)>(
      v: World, w: World, interval: Interval, strategy: Strategy<S>, r: Replay<S>, groups: seq<seq<Bar>>, t: int)
    requires NonEmptyGroups(groups) && PointInTime(strategy)
    requires v.rules == w.rules && v.step == w.step == StepOf(interval)
    requires forall b :: b in v.bars || b in w.bars ==> b.interval == interval
    requires Filter(v.bars, UpTo(t)) == Filter(w.bars, UpTo(t))
    requires forall i :: 0 <= i < |groups| ==> groups[i][0].time <= t
    ensures RunGroups(v, strategy, r, groups) == RunGroups(w, strategy, r, groups)
    decreases |groups|
  {
    hide OpenGroup, CloseGroup, DecideGroup, SameHistory;
    if groups != [] {
      var g := groups[0];
      var close := g[0].time + v.step;
      HistoryIgnoresFuture(v.bars, interval, t, close);
      HistoryIgnoresFuture(w.bars, interval, t, close);
      SameDecisions(Closed(v, r, g), strategy,
                    View(v.bars, close), View(w.bars, close), g);
      assert StepGroup(v, strategy, r, g) == StepGroup(w, strategy, r, g);
      SamePrefixRun(v, w, interval, strategy, StepGroup(v, strategy, r, g), groups[1..], t);
    }
  }

  /** Fills of a group carry its time, and so do the orders' submission times its close. */
  lemma {:induction false} OpenGroupFills(d: Desk, costs: Costs, group: seq<Bar>, t: int)
    requires forall b :: b in group ==> b.time == t
    ensures var d' := OpenGroup(d, costs, group);
      && d.account.fills <= d'.account.fills
      && (forall k :: |d.account.fills| <= k < |d'.account.fills| ==> d'.account.fills[k].time == t)
      && d'.account.curve == d.account.curve && d'.account.orderSeq == d.account.orderSeq
      && d'.risk == d.risk && d'.marks == d.marks
    decreases |group|
  {
    if group != [] && group[0].open > 0.0 {
      var b := group[0];
      ApplyFillsHistory(d.account, FillsOf(costs, Filter(d.pending, OrderFor(b.symbol)), b.open, b.time));
      OpenGroupFills(OpenBar(d, costs, b), costs, group[1..], t);
    }
  }

  lemma StepAppends<S>(w: World, strategy: Strategy<S>, r: Replay<S>, g: seq<Bar>)
    requires g != [] && SameTime(g)
    ensures var a, a' := r.desk.account, StepGroup(w, strategy, r, g).desk.account;
      && a.fills <= a'.fills
      && (forall k :: |a.fills| <= k < |a'.fills| ==> a'.fills[k].time == g[0].time)
      && |a'.curve| == |a.curve| + 1 && a.curve <= a'.curve
      && a'.curve[|a.curve|].time == g[0].time + w.step
  {
    var t := g[0].time;
    OpenGroupFills(r.desk, w.rules.costs, g, t);
    DecideKeepsClock(Closed(w, r, g), strategy, View(w.bars, t + w.step), g);
  }

  predicate SameRecordUpTo(a: Account, b: Account, t: int, step: int) {
    && Filter(a.fills, FillUpTo(t)) == Filter(b.fills, FillUpTo(t))
    && Filter(a.curve, PointUpTo(t + step)) == Filter(b.curve, PointUpTo(t + step))
  }

  lemma LaterGroupOnlyAppends<S>(w: World, strategy: Strategy<S>, r: Replay<S>, g: seq<Bar>, t: int)
    requires g != [] && SameTime(g) && g[0].time > t
    ensures SameRecordUpTo(r.desk.account, StepGroup(w, strategy, r, g).desk.account, t, w.step)
  {
    StepAppends(w, strategy, r, g);
    var a, a' := r.desk.account, StepGroup(w, strategy, r, g).desk.account;
    FilterGrown(a.fills, a'.fills, FillUpTo(t));
    FilterGrown(a.curve, a'.curve, PointUpTo(t + w.step));
  }

  /** Groups later than `t` leave the record up to `t` as it was. */
  lemma {:induction false} LaterGroupsOnlyAppend<S>(
      w: World, strategy: Strategy<S>, r: Replay<S>, groups: seq<seq<Bar>>, t: int)
    requires UniformGroups(groups) && NonEmptyGroups(groups)
    requires RunGroups(w, strategy, r, groups).Success?
    requires forall i :: 0 <= i < |groups| ==> groups[i][0].time > t
    ensures SameRecordUpTo(r.desk.account, RunGroups(w, strategy, r, groups).value.desk.account, t, w.step)
    decreases |groups|
  {
    if groups != [] {
      LaterGroupOnlyAppends(w, strategy, r, groups[0], t);
      LaterGroupsOnlyAppend(w, strategy, StepGroup(w, strategy, r, groups[0]), groups[1..], t);
    }
  }

  lemma FilterGrown<T>(xs: seq<T>, ys: seq<T>, p: T -> bool)
    requires xs <= ys && forall k :: |xs| <= k < |ys| ==> !p(ys[k])
    ensures Filter(ys, p) == Filter(xs, p)
  {
    var rest := ys[|xs|..];
    assert ys == xs + rest;
    assert forall k :: 0 <= k < |rest| ==> rest[k] == ys[|xs| + k];
    FilterNone(rest, p);
    FilterAppend(xs, rest, p);
  }

  /** No look-ahead. Two sources that agree on every bar up to time `t` give, for every
      strategy that reads through `history`/`latest`: the same state after the groups up to `t`
      (fills, cash, positions, pending orders, halts, the strategy's own state), and, for
      completed runs, the same fills up to `t` and the same equity points up to `t`'s close. */
  lemma NoLookAhead<S(!new)>(
      v: World, w: World, interval: Interval, strategy: Strategy<S>, r: Replay<S>, t: int)
    requires PointInTime(strategy)
    requires v.rules == w.rules && v.step == w.step == StepOf(interval)
    requires TimeOrdered(v.bars) && TimeOrdered(w.bars)
    requires forall b :: b in v.bars || b in w.bars ==> b.interval == interval
    requires Filter(v.bars, UpTo(t)) == Filter(w.bars, UpTo(t))
    ensures RunGroups(v, strategy, r, Groups(Filter(v.bars, UpTo(t))))
         == RunGroups(w, strategy, r, Groups(Filter(w.bars, UpTo(t))))
    ensures var x := RunGroups(v, strategy, r, Groups(v.bars)); var y := RunGroups(w, strategy, r, Groups(w.bars));
      x.Success? && y.Success? ==> SameRecordUpTo(x.value.desk.account, y.value.desk.account, t, v.step)
  {
    hide RunGroups, Groups;
    var early := Filter(v.bars, UpTo(t));
    assert forall b :: b in early ==> UpTo(t)(b);
    EarlyGroups(early, t);
    SamePrefixRun(v, w, interval, strategy, r, Groups(early), t);
    PrefixDeterminesRecord(v, strategy, r, t);
    PrefixDeterminesRecord(w, strategy, r, t);
  }

  lemma PrefixDeterminesRecord<S>(w: World, strategy: Strategy<S>, r: Replay<S>, t: int)
    requires TimeOrdered(w.bars)
    ensures var prefix := RunGroups(w, strategy, r, Groups(Filter(w.bars, UpTo(t))));
      var whole := RunGroups(w, strategy, r, Groups(w.bars));
      whole.Success? ==>
        prefix.Success? && SameRecordUpTo(prefix.value.desk.account, whole.value.desk.account, t, w.step)
  {
    var early, late := Filter(w.bars, UpTo(t)), Filter(w.bars, After(t));
    GroupsSplitAtTime(w.bars, t);
    RunAppend(w, strategy, r, Groups(early), Groups(late));
    var prefix := RunGroups(w, strategy, r, Groups(early));
    if prefix.Success? {
      var mid, rest := prefix.value, Groups(late);
      assert RunGroups(w, strategy, r, Groups(w.bars)) == RunGroups(w, strategy, mid, rest);
      if RunGroups(w, strategy, mid, rest).Success? {
        LateGroups(late, t);
        LaterGroupsOnlyAppend(w, strategy, mid, rest, t);
      }
    }
  }

  /** `iter_bars` hands out the whole source: a strategy that uses it is not point-in-time. */
  lemma ReadingTheWholeSourcePeeks(strategy: Strategy<()>, b: Bar)
    requires forall v: View, c: Bar, p: Snapshot ::
      strategy((), c, v, p) == ((), if v.bars == [] then [] else [Target(c.symbol, v.bars[|v.bars| - 1].close)])
    ensures !PointInTime(strategy)
  {
    var v, w := View([b], b.time), View([b.(close := b.close + 1.0)], b.time);
    var p := Snapshot(0.0, Book([], map[]), map[]);
    forall symbol, iv: Interval, n: nat | n > 0
      ensures History(v, symbol, iv, n) == History(w, symbol, iv, n)
    {
      HistoryFromClosed(v, symbol, iv, n);
      HistoryFromClosed(w, symbol, iv, n);
      FilterNone(v.bars, ClosedOf(symbol, iv, v.now));
      FilterNone(w.bars, ClosedOf(symbol, iv, w.now));
    }
    assert SameHistory(v, w);
    assert strategy((), b, v, p).1[0] != strategy((), b, w, p).1[0];
  }
}
