/** The deterministic replay loop (mre/backtest.py). */
module Backtest {
  import opened Collections
  import opened Market
  import opened Timeline
  import opened Source
  import opened Oms
  import opened Venue
  import opened Risk
  import opened Desk

  /** A strategy with private state `S`: it is handed the closed bar, the source and a
      portfolio snapshot, and answers with targets. */
  type Strategy<!S> = (S, Bar, View, Snapshot) -> (S, seq<Target>)

  /** Fixed surroundings of a run: trading rules, bar length, and the source's ordered bars. */
  datatype World = World(rules: Rules, step: int, bars: seq<Bar>)

  /** Everything a run changes: the desk, the strategy's own state and the clock. */
  datatype Replay<S> = Replay(desk: Desk, mind: S, now: int)

  datatype Config = Config(initialEquity: real, feeBps: real, slippageBps: real)

  datatype Report = Report(
    curve: seq<EquityPoint>, fills: seq<Fill>, initialEquity: real, finalEquity: real, reasons: set<Reason>)

  function DecideBar<S>(r: Replay<S>, strategy: Strategy<S>, view: View, b: Bar): Replay<S> {
    var (mind, raw) := strategy(r.mind, b, view, TakeSnapshot(r.desk.account, r.desk.marks));
    Replay(QueueTargets(r.desk, GateTargets(r.desk.risk, raw), view.now), mind, r.now)
  }

  function DecideGroup<S>(r: Replay<S>, strategy: Strategy<S>, view: View, group: seq<Bar>): Replay<S>
    decreases |group|
  {
    if group == [] then r
    else DecideGroup(DecideBar(r, strategy, view, group[0]), strategy, view, group[1..])
  }

  /** The state after phases 1 and 2 of a group. */
  function CloseStep(w: World, d: Desk, group: seq<Bar>): Desk
    requires group != []
  {
    CloseGroup(OpenGroup(d, w.rules.costs, group), w.rules, group, group[0].time + w.step)
  }

  function Closed<S>(w: World, r: Replay<S>, group: seq<Bar>): Replay<S>
    requires group != []
  {
    Replay(CloseStep(w, r.desk, group), r.mind, group[0].time + w.step)
  }

  function StepGroup<S>(w: World, strategy: Strategy<S>, r: Replay<S>, group: seq<Bar>): Replay<S>
    requires group != []
  {
    DecideGroup(Closed(w, r, group), strategy, View(w.bars, group[0].time + w.step), group)
  }

  /** A run over groups: it raises when the clock would move backward or an open is not positive. */
  function RunGroups<S>(w: World, strategy: Strategy<S>, r: Replay<S>, groups: seq<seq<Bar>>)
    : Result<Replay<S>, Error>
    requires NonEmptyGroups(groups)
    decreases |groups|
  {
    if groups == [] then Success(r)
    else if groups[0][0].time < r.now then Failure(ClockMovedBackward)
    else if !OpensPositive(groups[0]) then Failure(NonPositiveOpen)
    else RunGroups(w, strategy, StepGroup(w, strategy, r, groups[0]), groups[1..])
  }

  lemma RunFirst<S>(w: World, strategy: Strategy<S>, r: Replay<S>, g: seq<Bar>, rest: seq<seq<Bar>>)
    requires g != [] && NonEmptyGroups(rest)
    ensures NonEmptyGroups([g] + rest)
    ensures RunGroups(w, strategy, r, [g] + rest)
      == if g[0].time < r.now then Failure(ClockMovedBackward)
         else if !OpensPositive(g) then Failure(NonPositiveOpen)
         else RunGroups(w, strategy, StepGroup(w, strategy, r, g), rest)
  {
    assert ([g] + rest)[1..] == rest;
  }

  /** A step does not read the clock it starts from. */
  lemma StepIgnoresClock<S>(w: World, strategy: Strategy<S>, r: Replay<S>, now: int, g: seq<Bar>)
    requires g != []
    ensures StepGroup(w, strategy, r, g) == StepGroup(w, strategy, r.(now := now), g)
  {
  }

  function Start<S>(initialEquity: real, risk: RiskState, mind: S, now: int): Replay<S> {
    Replay(NewDesk(initialEquity, risk), mind, now)
  }

  function ReportOf<S>(initialEquity: real, r: Replay<S>): Report {
    var a := r.desk.account;
    Report(a.curve, a.fills, initialEquity,
           if a.curve == [] then initialEquity else a.curve[|a.curve| - 1].equity, r.desk.risk.ever)
  }

  /** What `run_backtest` computes, exceptions included. */
  function BacktestOutcome<S>(
      config: Config, w: World, strategy: Strategy<S>, risk: RiskState, mind: S, now: int)
    : Result<Report, Error>
  {
    if config.feeBps < 0.0 || config.slippageBps < 0.0 then Failure(NegativeBps)
    else if config.initialEquity <= 0.0 then Failure(NonPositiveEquity)
    else
      match RunGroups(w, strategy, Start(config.initialEquity, risk, mind, now), Groups(w.bars))
      case Success(r) => Success(ReportOf(config.initialEquity, r))
      case Failure(e) => Failure(e)
  }

  method RunBacktest<S>(
      source: MarketReplaySource, strategy: Strategy<S>, mind: S, config: Config, risk: RiskManager)
    returns (result: Result<Report, Error>)
    requires source.Valid()
    modifies source.clock, risk
    ensures result == BacktestOutcome(
      config,
      World(Rules(Costs(config.feeBps, config.slippageBps), risk.calendar, risk.limits), source.step, source.bars),
      strategy, old(risk.Value()), mind, old(source.clock.now))
  {
    hide RunGroups, Groups;
    if config.feeBps < 0.0 || config.slippageBps < 0.0 {
      return Failure(NegativeBps);
    }
    if config.initialEquity <= 0.0 {
      return Failure(NonPositiveEquity);
    }
    var venue := new SimulatedVenue(Costs(config.feeBps, config.slippageBps));
    var oms := new OrderManager(config.initialEquity);
    var run := RunLoop(source, strategy, mind, venue, oms, risk);
    if run.Failure? {
      return Failure(run.error);
    }
    var curve := oms.equityHistory;
    var final := if curve == [] then config.initialEquity else curve[|curve| - 1].equity;
    return Success(Report(curve, oms.fillHistory, config.initialEquity, final, risk.reasonsEver));
  }

  /** The loop over groups: `j` runs to the end of the bars that share bar `i`'s time. */
  method RunLoop<S>(
      source: MarketReplaySource, strategy: Strategy<S>, mind: S, venue: SimulatedVenue, oms: OrderManager,
      risk: RiskManager)
    returns (result: Result<(S, map<string, real>), Error>)
    requires source.Valid() && oms.Valid()
    modifies source.clock, venue, oms, risk
    ensures oms.Valid()
    ensures var w := World(Rules(venue.costs, risk.calendar, risk.limits), source.step, source.bars);
      var run := RunGroups(w, strategy,
        Replay(Desk(old(oms.Value()), old(venue.pending), old(risk.Value()), map[]), mind, old(source.clock.now)),
        Groups(source.bars));
      match result
      case Failure(e) => run == Failure(e)
      case Success(s) => run == Success(Replay(Desk(oms.Value(), venue.pending, risk.Value(), s.1), s.0, source.clock.now))
  {
    hide StepGroup, Groups;
    var bars, clock := source.bars, source.clock;
    var mind, marks: map<string, real> := mind, map[];
    ghost var w := World(Rules(venue.costs, risk.calendar, risk.limits), source.step, bars);
    ghost var whole := RunGroups(w, strategy,
      Replay(Desk(oms.Value(), venue.pending, risk.Value(), marks), mind, clock.now), Groups(bars));
    var i := 0;
    assert bars[0..] == bars;
    while i < |bars|
      invariant 0 <= i <= |bars|
      invariant oms.Valid()
      invariant RunGroups(w, strategy,
        Replay(Desk(oms.Value(), venue.pending, risk.Value(), marks), mind, clock.now), Groups(bars[i..])) == whole
    {
      var j := i + 1;
      while j < |bars| && bars[j].time == bars[i].time
        invariant i < j <= |bars|
        invariant forall k :: i <= k < j ==> bars[k].time == bars[i].time
      {
        j := j + 1;
      }
      NextGroup(bars, i, j);
      ghost var before := Replay(Desk(oms.Value(), venue.pending, risk.Value(), marks), mind, clock.now);
      RunFirst(w, strategy, before, bars[i..j], Groups(bars[j..]));
      StepIgnoresClock(w, strategy, before, bars[i].time, bars[i..j]);
      var moved := clock.AdvanceTo(bars[i].time);
      if moved.Failure? {
        return Failure(moved.error);
      }
      var stepped := ReplayGroup(source, strategy, mind, venue, oms, risk, marks, bars[i..j]);
      if stepped.Failure? {
        return Failure(stepped.error);
      }
      mind, marks := stepped.value.0, stepped.value.1;
      i := j;
    }
    NoGroupsLeft(bars);
    return Success((mind, marks));
  }

  /** The loop body: one group at its open, its close and its decisions. */
  method ReplayGroup<S>(
      source: MarketReplaySource, strategy: Strategy<S>, mind: S, venue: SimulatedVenue, oms: OrderManager,
      risk: RiskManager, marks: map<string, real>, group: seq<Bar>)
    returns (result: Result<(S, map<string, real>), Error>)
    requires source.Valid() && oms.Valid() && group != [] && source.clock.now == group[0].time
    modifies source.clock, venue, oms, risk
    ensures oms.Valid()
    ensures result.Success? <==> OpensPositive(group)
    ensures result.Failure? ==> result.error == NonPositiveOpen
    ensures result.Success? ==>
      var w := World(Rules(venue.costs, risk.calendar, risk.limits), source.step, source.bars);
      Replay(Desk(oms.Value(), venue.pending, risk.Value(), result.value.1), result.value.0, source.clock.now)
      == StepGroup(w, strategy,
           Replay(Desk(old(oms.Value()), old(venue.pending), old(risk.Value()), marks), mind, old(source.clock.now)),
           group)
  {
    // 1. bar open
    var filled := FillOpens(venue, oms, group, risk.Value(), marks);
    if filled.Failure? {
      return Failure(filled.error);
    }
    // 2. bar close
    var close := group[0].time + source.step;
    var moved := source.clock.AdvanceTo(close);
    var marks' := RefreshMarks(marks, group);
    var equity := oms.EquityAt(marks');
    oms.Record(close, marks');
    risk.Update(close, equity);
    // 3. decisions
    var mind' := DecideOnGroup(source, strategy, mind, venue, oms, risk, marks', group, close);
    return Success((mind', marks'));
  }

  method FillOpens(
      venue: SimulatedVenue, oms: OrderManager, group: seq<Bar>, ghost risk: RiskState, ghost marks: map<string, real>)
    returns (r: Result<(), Error>)
    requires oms.Valid()
    modifies venue, oms
    ensures oms.Valid()
    ensures r == if OpensPositive(group) then Success(()) else Failure(NonPositiveOpen)
    ensures Desk(oms.Value(), venue.pending, risk, marks)
         == OpenGroup(Desk(old(oms.Value()), old(venue.pending), risk, marks), venue.costs, group)
  {
    ghost var d0 := Desk(oms.Value(), venue.pending, risk, marks);
    for i := 0 to |group|
      invariant oms.Valid()
      invariant OpensPositive(group[..i])
      invariant OpenGroup(Desk(oms.Value(), venue.pending, risk, marks), venue.costs, group[i..])
             == OpenGroup(d0, venue.costs, group)
    {
      assert group[i..][1..] == group[i + 1..];
      assert group[..i + 1] == group[..i] + [group[i]];
      var filled := FillBar(venue, oms, group[i], risk, marks);
      if filled.Failure? {
        return Failure(filled.error);
      }
    }
    assert group[..|group|] == group;
    return Success(());
  }

  method FillBar(
      venue: SimulatedVenue, oms: OrderManager, b: Bar, ghost risk: RiskState, ghost marks: map<string, real>)
    returns (r: Result<(), Error>)
    requires oms.Valid()
    modifies venue, oms
    ensures oms.Valid()
    ensures r == if b.open > 0.0 then Success(()) else Failure(NonPositiveOpen)
    ensures Desk(oms.Value(), venue.pending, risk, marks)
         == var d0 := Desk(old(oms.Value()), old(venue.pending), risk, marks);
            if b.open > 0.0 then OpenBar(d0, venue.costs, b) else d0
  {
    var filled := venue.ProcessOpen(b.symbol, b.open, b.time);
    if filled.Failure? {
      return Failure(filled.error);
    }
    var fills := filled.value;
    ghost var a := oms.Value();
    for k := 0 to |fills|
      invariant oms.Valid()
      invariant venue.pending == Filter(old(venue.pending), OrderNotFor(b.symbol))
      invariant ApplyFills(oms.Value(), fills[k..]) == ApplyFills(a, fills)
    {
      assert fills[k..][1..] == fills[k + 1..];
      oms.Apply(fills[k]);
    }
    assert fills[|fills|..] == [];
    return Success(());
  }

  method RefreshMarks(marks: map<string, real>, group: seq<Bar>) returns (marks': map<string, real>)
    ensures marks' == MarkGroup(marks, group)
  {
    marks' := marks;
    for i := 0 to |group|
      invariant MarkGroup(marks', group[i..]) == MarkGroup(marks, group)
    {
      assert group[i..][1..] == group[i + 1..];
      marks' := marks'[group[i].symbol := group[i].close];
    }
  }

  method DecideOnGroup<S>(
      source: MarketReplaySource, strategy: Strategy<S>, mind: S, venue: SimulatedVenue, oms: OrderManager,
      risk: RiskManager, marks: map<string, real>, group: seq<Bar>, close: int)
    returns (mind': S)
    requires oms.Valid() && source.clock.now == close
    modifies venue, oms
    ensures oms.Valid()
    ensures Replay(Desk(oms.Value(), venue.pending, risk.Value(), marks), mind', close)
      == DecideGroup(Replay(Desk(old(oms.Value()), old(venue.pending), risk.Value(), marks), mind, close),
                     strategy, source.Value(), group)
  {
    hide RiskUpdate, DeltaOrders, GateTargets;
    mind' := mind;
    ghost var view := source.Value();
    ghost var d0 := Desk(oms.Value(), venue.pending, risk.Value(), marks);
    for i := 0 to |group|
      invariant oms.Valid()
      invariant DecideGroup(Replay(Desk(oms.Value(), venue.pending, risk.Value(), marks), mind', close),
                            strategy, view, group[i..])
             == DecideGroup(Replay(d0, mind, close), strategy, view, group)
    {
      assert group[i..][1..] == group[i + 1..];
      var snapshot := oms.SnapshotNow(marks);
      var (next, raw) := strategy(mind', group[i], source.Value(), snapshot);
      mind' := next;
      var allowed := risk.GateTargetList(raw);
      var orders := oms.ComputeDeltaOrders(allowed, close);
      venue.Submit(orders);
    }
  }
}
