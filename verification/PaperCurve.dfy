/** Why an engine is halted: a staleness trip, or its equity since its own start has fallen past a
    limit within the current day, week or month (paper/engine.py `_sync_drawdown_halt`). */
module PaperCurve {
  import opened Collections
  import opened Market
  import opened Timeline
  import opened Source
  import opened Oms
  import opened Venue
  import opened Risk
  import opened Drawdown
  import opened Desk
  import opened CostBasis
  import opened Strategies
  import opened PaperState
  import opened PaperRefinement
  import opened PaperRecovery
  import opened PaperHalts

  /** Risk memory and drawdown halts are those of the equity curve recorded since the start. */
  ghost predicate FollowsCurve(p: Paper, cfg: PaperConfig) {
    && p.desk.risk == RiskAfter(cfg.initialEquity, cfg.rules.cal, cfg.rules.limits, p.desk.account.curve)
    && forall r :: KillReason.Drawdown(r) in p.kill <==> r in Halted(p.desk.risk)
  }

  /** Some limit has been passed within its current period. */
  ghost predicate Fallen(rules: Rules, curve: seq<EquityPoint>) {
    curve != [] &&
    (FellBy(CurrentRun(curve, rules.cal.day), rules.limits.daily)
     || FellBy(CurrentRun(curve, rules.cal.week), rules.limits.weekly)
     || FellBy(CurrentRun(curve, rules.cal.month), rules.limits.monthly))
  }

  // ------------------------------------------------------------- every step keeps it

  lemma OpenPaperFollows(p: Paper, cfg: PaperConfig, group: seq<Bar>, bars: seq<Bar>, wall: int)
    requires group != [] && FollowsCurve(p, cfg)
    ensures var q := OpenPaper(Arrived(p, group), cfg, bars, wall);
      FollowsCurve(q, cfg) && q.desk.account.curve == p.desk.account.curve && q.kill == p.kill
  {
    hide OpenPaper, OpenGroup, RiskAfter, Halted, EnterBars;
    OpenPaperDesk(Arrived(p, group), cfg, bars, wall);
    OpenKeepsRecord(p.desk, cfg.rules.costs, bars);
  }

  /** The close of a group adds one point, and the halts are those of the longer curve. */
  lemma MarkedFollows(p: Paper, cfg: PaperConfig, g: seq<Bar>, wall: int)
    requires g != [] && FollowsCurve(p, cfg)
    ensures var m := MarkedPaper(p, cfg, g, wall);
      && FollowsCurve(m, cfg)
      && m.desk.account.curve == p.desk.account.curve + [EquityPoint(g[0].time + StepOf(cfg.interval), Equity(m.desk.account, m.desk.marks))]
      && (DataStaleness in m.kill <==> DataStaleness in p.kill)
  {
    hide OpenPaper, RiskUpdate, SyncHalts, Halted, EnterBars, HeldValue, MarkGroup;
    OpenPaperFollows(p, cfg, g, g, wall);
    var filled := OpenPaper(Arrived(p, g), cfg, g, wall);
    var closed := filled.(desk := CloseGroup(filled.desk, cfg.rules, g, g[0].time + StepOf(cfg.interval)));
    SyncMirrorsRisk(closed, wall);
    var curve := closed.desk.account.curve;
    assert curve[..|curve| - 1] == p.desk.account.curve;
  }

  lemma GroupFollows(p: Paper, cfg: PaperConfig, g: seq<Bar>, wall: int)
    requires g != [] && BundlesOk(cfg.bundles) && FollowsCurve(p, cfg)
    ensures FollowsCurve(ProcessGroup(p, cfg, g, wall).0, cfg)
  {
    hide OpenPaper, MarkedPaper, DecidePaper, PaperView, RiskAfter, Halted, Arrived, Finish;
    if !OpensPositive(g) {
      OpenPaperFollows(p, cfg, g, g, wall);
    } else {
      var close := g[0].time + StepOf(cfg.interval);
      var m := MarkedPaper(p, cfg, g, wall);
      MarkedFollows(p, cfg, g, wall);
      DecisionsReach(m, cfg, PaperView(m, cfg, close), g, wall);
      FinishKeeps(DecidePaper(m, cfg, PaperView(m, cfg, close), g, wall), cfg, close, wall);
    }
  }

  lemma {:induction false} GroupsFollow(p: Paper, cfg: PaperConfig, groups: seq<seq<Bar>>, wall: int)
    requires NonEmptyGroups(groups) && BundlesOk(cfg.bundles) && FollowsCurve(p, cfg)
    ensures FollowsCurve(ProcessGroups(p, cfg, groups, wall).0, cfg)
    decreases |groups|
  {
    if groups != [] {
      hide ProcessGroup, FollowsCurve;
      GroupFollows(p, cfg, groups[0], wall);
      var (q, ok) := ProcessGroup(p, cfg, groups[0], wall);
      if ok {
        GroupsFollow(q, cfg, groups[1..], wall);
      }
    }
  }

  lemma {:induction false} RecallKeepsCurve(p: Paper, journal: seq<Entry>)
    ensures RecallAll(p, journal).desk.account.curve == p.desk.account.curve
  {
    if journal != [] {
      hide BasisStep, Notional, Adjust;
      RecallKeepsCurve(p, journal[..|journal| - 1]);
    }
  }

  /** A restarted engine has no risk memory and no halts: an empty curve. */
  lemma RestartFollows(cfg: PaperConfig, journal: seq<Entry>, saved: Option<Saved>)
    ensures var q := Restart(cfg, journal, saved);
      FollowsCurve(q, cfg) && q.desk.account.curve == [] && q.kill == {}
  {
    hide RecallAll;
    RecallIsRemember(NewPaper(cfg), journal);
    RecallKeepsCurve(NewPaper(cfg), journal);
  }

  lemma {:induction false} LifeFollows(cfg: PaperConfig, stimuli: seq<Stimulus>)
    requires KnownBundles(cfg)
    ensures FollowsCurve(Life(cfg, stimuli), cfg)
  {
    if stimuli != [] {
      var n := |stimuli| - 1;
      LifeFollows(cfg, stimuli[..n]);
      ReactFollows(Life(cfg, stimuli[..n]), cfg, stimuli[n]);
    }
  }

  lemma ReactFollows(p: Paper, cfg: PaperConfig, x: Stimulus)
    requires KnownBundles(cfg) && FollowsCurve(p, cfg)
    ensures FollowsCurve(React(p, cfg, x), cfg)
  {
    hide ProcessGroups, SeedSymbols, ReplaySort, Groups, Reached, CrashedAt, Restart, RiskAfter, Halted;
    match x
    case Fetch(candles, wall) =>
      SeedSymbolsKeep(p, cfg, cfg.symbols, candles);
    case Batch(bars, wall) =>
      GroupsFollow(p, cfg, Groups(ReplaySort(Filter(bars, Relevant(cfg)))), wall);
    case StalenessCheck(now) =>
    case Restarted =>
      RestartFollows(cfg, p.journal, p.saved);
    case Crashed(group, wall, at) =>
      if group != [] && Reached(p, cfg, group, wall, at) {
        var crashed := CrashedAt(p, cfg, group, wall, at);
        RestartFollows(cfg, crashed.journal, crashed.saved);
      }
  }

  // ------------------------------------------------------------- what halts mean

  lemma HaltedIffFallen(p: Paper, cfg: PaperConfig)
    requires FollowsCurve(p, cfg) && LimitsOk(cfg.rules.limits)
    ensures EngineHalted(p) <==> DataStaleness in p.kill || Fallen(cfg.rules, p.desk.account.curve)
  {
    hide RiskAfter, FellBy, CurrentRun, LimitsOk;
    var curve := p.desk.account.curve;
    HaltedIff(p.desk.risk);
    KilledIff(p);
    if curve != [] {
      HaltedExactlyWhenFallen(cfg.initialEquity, cfg.rules.cal, cfg.rules.limits, curve);
    } else {
      NoPointsNoHalt(cfg);
    }
  }

  lemma NoPointsNoHalt(cfg: PaperConfig)
    ensures !IsHalted(RiskAfter(cfg.initialEquity, cfg.rules.cal, cfg.rules.limits, []))
  {
  }

  lemma KilledIff(p: Paper)
    requires forall r :: KillReason.Drawdown(r) in p.kill <==> r in Halted(p.desk.risk)
    ensures p.kill != {} <==> DataStaleness in p.kill || Halted(p.desk.risk) != {}
  {
    hide Halted;
    if k :| k in p.kill {
      match k case DataStaleness => case Drawdown(r) =>
    }
  }

  /** In every reachable state: halted exactly when stale, or when equity recorded since the start
      of this engine has fallen past a limit within its current period. */
  lemma HaltedInEveryState(cfg: PaperConfig, stimuli: seq<Stimulus>)
    requires KnownBundles(cfg) && LimitsOk(cfg.rules.limits)
    ensures var p := Life(cfg, stimuli);
      EngineHalted(p) <==> DataStaleness in p.kill || Fallen(cfg.rules, p.desk.account.curve)
  {
    LifeFollows(cfg, stimuli);
    HaltedIffFallen(Life(cfg, stimuli), cfg);
  }

  /** The same at the close of a group, where its decisions are taken. */
  lemma HaltedAtClose(p: Paper, cfg: PaperConfig, g: seq<Bar>, wall: int)
    requires g != [] && FollowsCurve(p, cfg) && LimitsOk(cfg.rules.limits)
    ensures var m := MarkedPaper(p, cfg, g, wall);
      EngineHalted(m) <==>
        DataStaleness in p.kill
        || Fallen(cfg.rules, p.desk.account.curve + [EquityPoint(g[0].time + StepOf(cfg.interval), Equity(m.desk.account, m.desk.marks))])
  {
    hide MarkedPaper, Fallen, FollowsCurve, Equity;
    MarkedFollows(p, cfg, g, wall);
    HaltedIffFallen(MarkedPaper(p, cfg, g, wall), cfg);
  }

  lemma OnePointIsNoFall(e: real, limit: real)
    requires 0.0 < limit <= 1.0
    ensures !FellBy([e], limit)
  {
    GateStarts(e, limit);
    MaxDrawdownIsLargestFall([e], limit);
  }

  /** The first group after a restart is never decided under a halt: its own close is the first
      point of the new curve. */
  lemma FirstGroupUnhalted(q: Paper, cfg: PaperConfig, g: seq<Bar>, wall: int)
    requires g != [] && FollowsCurve(q, cfg) && LimitsOk(cfg.rules.limits)
    requires q.desk.account.curve == [] && q.kill == {}
    ensures !EngineHalted(MarkedPaper(q, cfg, g, wall))
  {
    hide MarkedPaper, FollowsCurve, Equity, FellBy;
    var m := MarkedPaper(q, cfg, g, wall);
    var e := Equity(m.desk.account, m.desk.marks);
    var point := EquityPoint(g[0].time + StepOf(cfg.interval), e);
    HaltedAtClose(q, cfg, g, wall);
    assert [] + [point] == [point];
    forall key: int -> int ensures CurrentRun([point], key) == [e] {
    }
    OnePointIsNoFall(e, cfg.rules.limits.daily);
    OnePointIsNoFall(e, cfg.rules.limits.weekly);
    OnePointIsNoFall(e, cfg.rules.limits.monthly);
  }
}
