/** A strategy that names another symbol's target on its own bars, and the target it overshoots. */
module Rebalancing {
  import opened Collections
  import opened Market
  import opened Timeline
  import opened Source
  import opened Venue
  import opened Risk
  import opened Desk
  import opened Backtest
  import opened Commitment
  import opened Tracking

  /** Names B on every bar of A, as a strategy that rebalances on its primary symbol does. */
  function Rebalance(): Strategy<()> {
    (mind: (), b: Bar, v: View, p: Snapshot) => ((), if b.symbol == "A" then [Target("B", 1.0)] else [])
  }

  function FlatBar(symbol: string, time: int): Bar {
    Bar(symbol, Min1, time, 1.0, 1.0, 1.0, 1.0, 1.0, 1.0)
  }

  /** A desk that has never traded, at its initial equity of 100. */
  predicate Untouched(d: Desk) {
    && d.account.cash == 100.0 && d.account.book == Book([], map[]) && !IsHalted(d.risk)
    && d.risk.daily.hwm == d.risk.weekly.hwm == d.risk.monthly.hwm == 100.0
  }

  lemma QuietGate(g: Gate, key: int, limit: real)
    requires !g.active && g.hwm == 100.0 && limit > 0.0
    ensures var g' := GateUpdate(g, key, 100.0, limit); !g'.active && g'.hwm == 100.0
  {
  }

  lemma QuietClose(d: Desk, rules: Rules, group: seq<Bar>, time: int)
    requires LimitsOk(rules.limits) && Untouched(d)
    ensures var d' := CloseGroup(d, rules, group, time); Untouched(d') && d'.pending == d.pending
  {
    hide GateUpdate, MarkGroup;
    QuietGate(d.risk.daily, rules.cal.day(time), rules.limits.daily);
    QuietGate(d.risk.weekly, rules.cal.week(time), rules.limits.weekly);
    QuietGate(d.risk.monthly, rules.cal.month(time), rules.limits.monthly);
  }

  /** One bar of A while nothing is queued for A: an untouched desk queues one more B. */
  lemma RebalanceStep(w: World, r: Replay<()>, time: int)
    requires LimitsOk(w.rules.limits) && Untouched(r.desk) && Mine(r.desk, "A") == []
    ensures var d := StepGroup(w, Rebalance(), r, [FlatBar("A", time)]).desk;
      Untouched(d) && Mine(d, "A") == [] && Net(Mine(d, "B")) == Net(Mine(r.desk, "B")) + 1.0
  {
    var b, t := FlatBar("A", time), Target("B", 1.0);
    var filled := OpenGroup(r.desk, w.rules.costs, [b]);
    assert [b][1..] == [];
    var after := OpenBar(r.desk, w.rules.costs, b);
    assert OpenGroup(after, w.rules.costs, [b][1..]) == after;
    assert b.open > 0.0 && [b][0] == b;
    assert FillsOf(w.rules.costs, [], b.open, b.time) == [];
    assert filled.account == r.desk.account;
    OpenOtherBar(r.desk, w.rules.costs, b, "B");
    OpenOwnBar(r.desk, w.rules.costs, b);
    hide OpenBar, OpenGroup, CloseGroup, Filter;
    QuietClose(filled, w.rules, [b], time + w.step);
    var closed := Closed(w, r, [b]);
    var view := View(w.bars, time + w.step);
    assert DecideGroup(closed, Rebalance(), view, [b]) == DecideBar(closed, Rebalance(), view, b);
    QueueOne(closed.desk, [t], view.now, "A");
    QueueCommits(closed.desk, [t], view.now, "B");
  }

  /** Two bars of A, then the first of B. */
  function ThreeBars(): (groups: seq<seq<Bar>>)
    ensures NonEmptyGroups(groups)
  {
    [[FlatBar("A", 0)], [FlatBar("A", 1)], [FlatBar("B", 2)]]
  }

  function ThreeMinutes(cal: Calendar, limits: Limits): Result<Replay<()>, Error> {
    var w := World(Rules(Costs(0.0, 0.0), cal, limits), 1, [FlatBar("A", 0), FlatBar("A", 1), FlatBar("B", 2)]);
    RunGroups(w, Rebalance(), Start(100.0, NewRisk(100.0), (), 0), ThreeBars())
  }

  /** The same target of 1 named on two consecutive bars before B trades: B is bought twice. */
  lemma SameTargetTwiceDoubles(cal: Calendar, limits: Limits)
    requires LimitsOk(limits)
    ensures var run := ThreeMinutes(cal, limits); run.Success? && Held(run.value.desk, "B") == 2.0
  {
    hide StepGroup, CloseStep, Mine, Held, RunGroups, Rebalance;
    var w := World(Rules(Costs(0.0, 0.0), cal, limits), 1, [FlatBar("A", 0), FlatBar("A", 1), FlatBar("B", 2)]);
    var r0 := Start(100.0, NewRisk(100.0), (), 0);
    var a, b, c := [FlatBar("A", 0)], [FlatBar("A", 1)], [FlatBar("B", 2)];
    StartsUntouched(r0.desk);
    RebalanceStep(w, r0, 0);
    var r1 := StepGroup(w, Rebalance(), r0, a);
    RebalanceStep(w, r1, 1);
    var r2 := StepGroup(w, Rebalance(), r1, b);
    UntouchedHolds(r2.desk, "B");
    RunsThrough(w, r0, a, b, c);
    assert ThreeBars() == [a, b, c];
    NothingNamed(w, r2, c);
  }

  lemma StartsUntouched(d: Desk)
    requires d == NewDesk(100.0, NewRisk(100.0))
    ensures Untouched(d) && Mine(d, "A") == [] && Net(Mine(d, "B")) == 0.0
  {
  }

  lemma UntouchedHolds(d: Desk, s: string)
    requires Untouched(d)
    ensures Held(d, s) == 0.0
  {
  }

  /** A bar of B fills what is queued for it and names nothing. */
  lemma NothingNamed(w: World, r: Replay<()>, c: seq<Bar>)
    requires c == [FlatBar("B", 2)] && w.step == 1
    ensures Held(StepGroup(w, Rebalance(), r, c).desk, "B") == Committed(r.desk, "B")
  {
    hide CloseStep, OpenGroup, Mine, Held;
    OpenSettles(r.desk, w.rules.costs, c, "B");
    CloseKeepsQueue(w, r.desk, c, "B");
    assert c[0].symbol == "B" && c[1..] == [];
    var closed := Closed(w, r, c);
    assert DecideGroup(closed, Rebalance(), View(w.bars, 3), c) == DecideBar(closed, Rebalance(), View(w.bars, 3), c[0]);
    QueueCommits(closed.desk, GateTargets(closed.desk.risk, []), 3, "B");
  }

  lemma RunsThrough(w: World, r: Replay<()>, a: seq<Bar>, b: seq<Bar>, c: seq<Bar>)
    requires a != [] && b != [] && c != [] && OpensPositive(a) && OpensPositive(b) && OpensPositive(c)
    requires r.now <= a[0].time && a[0].time + w.step <= b[0].time && b[0].time + w.step <= c[0].time
    ensures var r1 := StepGroup(w, Rebalance(), r, a); var r2 := StepGroup(w, Rebalance(), r1, b);
      RunGroups(w, Rebalance(), r, [a, b, c]) == Success(StepGroup(w, Rebalance(), r2, c))
  {
    hide StepGroup, OpensPositive, RunGroups;
    var r1 := StepGroup(w, Rebalance(), r, a);
    var r2 := StepGroup(w, Rebalance(), r1, b);
    assert [a, b, c] == [a] + ([b] + ([c] + [])) && [b, c] == [b] + ([c] + []) && [c] == [c] + [];
    RunNothing(w, StepGroup(w, Rebalance(), r2, c));
    RunFirst(w, Rebalance(), r2, c, []);
    RunFirst(w, Rebalance(), r1, b, [c]);
    RunFirst(w, Rebalance(), r, a, [b, c]);
    StepTime(w, r, a);
    StepTime(w, r1, b);
  }

  lemma RunNothing(w: World, r: Replay<()>)
    ensures RunGroups(w, Rebalance(), r, []) == Success(r)
  {
  }

  lemma {:induction false} DecideKeepsNow(r: Replay<()>, view: View, group: seq<Bar>)
    ensures DecideGroup(r, Rebalance(), view, group).now == r.now
    decreases |group|
  {
    if group != [] {
      DecideKeepsNow(DecideBar(r, Rebalance(), view, group[0]), view, group[1..]);
    }
  }

  lemma StepTime(w: World, r: Replay<()>, g: seq<Bar>)
    requires g != []
    ensures StepGroup(w, Rebalance(), r, g).now == g[0].time + w.step
  {
    hide CloseStep, DecideGroup, Rebalance;
    DecideKeepsNow(Closed(w, r, g), View(w.bars, g[0].time + w.step), g);
  }
}
