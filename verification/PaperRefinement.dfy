/** The paper engine, fed the same bars, is the backtest: same fills and order ids, cash,
    positions, queue, risk state and equity curve after every group. */
module PaperRefinement {
  import opened Collections
  import opened Market
  import opened Timeline
  import opened Source
  import opened Oms
  import opened Venue
  import opened Risk
  import opened Desk
  import opened Backtest
  import opened ReplaySafety
  import opened Strategies
  import opened PaperState

  // ------------------------------------------------------------- what each phase leaves alone

  /** Everything but desk, books, counters and journal. */
  ghost predicate SameSurroundings(p: Paper, q: Paper) {
    p.buffers == q.buffers && p.kill == q.kill && p.lastBarTime == q.lastBarTime
    && p.prevClose == q.prevClose && p.saved == q.saved
  }

  lemma {:induction false} SettleFillsDesk(p: Paper, fills: seq<Fill>, wall: int)
    ensures SettleFills(p, fills, wall).desk == p.desk.(account := ApplyFills(p.desk.account, fills))
    ensures SameSurroundings(p, SettleFills(p, fills, wall))
    decreases |fills|
  {
    if fills != [] {
      hide KindOf, Equity;
      SettleFillsDesk(SettleFill(p, fills[0], wall), fills[1..], wall);
    }
  }

  lemma {:induction false} OpenPaperDesk(p: Paper, cfg: PaperConfig, group: seq<Bar>, wall: int)
    ensures OpenPaper(p, cfg, group, wall).desk == OpenGroup(p.desk, cfg.rules.costs, group)
    ensures SameSurroundings(p, OpenPaper(p, cfg, group, wall))
    decreases |group|
  {
    if group != [] && group[0].open > 0.0 {
      hide SettleFill, FillsOf;
      var b := group[0];
      var fills := FillsOf(cfg.rules.costs, Filter(p.desk.pending, OrderFor(b.symbol)), b.open, b.time);
      SettleFillsDesk(p.(desk := p.desk.(pending := Filter(p.desk.pending, OrderNotFor(b.symbol)))), fills, wall);
      OpenPaperDesk(OpenPaperBar(p, cfg, b, wall), cfg, group[1..], wall);
    }
  }

  ghost predicate OnlyKillAndJournal(p: Paper, q: Paper) {
    q.desk == p.desk && q.buffers == p.buffers && q.lastBarTime == p.lastBarTime
    && q.prevClose == p.prevClose && q.saved == p.saved && q.basis == p.basis && q.realized == p.realized
    && q.nFills == p.nFills && q.nDecisions == p.nDecisions
  }

  lemma TripEffect(p: Paper, h: set<Reason>, r: Reason, wall: int)
    ensures var q := TripReason(p, h, r, wall);
      && OnlyKillAndJournal(p, q)
      && forall k :: k in q.kill <==> k in p.kill || (k == Drawdown(r) && r in h)
  {
  }

  lemma ClearEffect(p: Paper, h: set<Reason>, r: Reason, wall: int)
    ensures var q := ClearReason(p, h, r, wall);
      && OnlyKillAndJournal(p, q)
      && forall k :: k in q.kill <==> k in p.kill && (k == Drawdown(r) ==> r in h)
  {
  }

  /** After the synchronisation the kill switch holds exactly the risk manager's reasons, and
      data staleness as before. */
  lemma SyncMirrorsRisk(p: Paper, wall: int)
    ensures var q := SyncHalts(p, wall);
      && OnlyKillAndJournal(p, q)
      && (forall r :: Drawdown(r) in q.kill <==> r in Halted(p.desk.risk))
      && (DataStaleness in q.kill <==> DataStaleness in p.kill)
  {
    hide TripReason, ClearReason, Halted;
    var h := Halted(p.desk.risk);
    TripEffect(p, h, DailyDd, wall);
    var p1 := TripReason(p, h, DailyDd, wall);
    TripEffect(p1, h, MonthlyDd, wall);
    var p2 := TripReason(p1, h, MonthlyDd, wall);
    TripEffect(p2, h, WeeklyDd, wall);
    var p3 := TripReason(p2, h, WeeklyDd, wall);
    ClearEffect(p3, h, DailyDd, wall);
    var p4 := ClearReason(p3, h, DailyDd, wall);
    ClearEffect(p4, h, WeeklyDd, wall);
    var p5 := ClearReason(p4, h, WeeklyDd, wall);
    ClearEffect(p5, h, MonthlyDd, wall);
    var q := ClearReason(p5, h, MonthlyDd, wall);
    assert q == SyncHalts(p, wall);
    forall r ensures Drawdown(r) in q.kill <==> r in h {
      match r case DailyDd => case WeeklyDd => case MonthlyDd =>
    }
  }

  lemma HaltedIff(r: RiskState)
    ensures Halted(r) != {} <==> IsHalted(r)
  {
    if IsHalted(r) {
      assert DailyDd in Halted(r) || WeeklyDd in Halted(r) || MonthlyDd in Halted(r);
    }
  }

  /** No kill reason beyond the mirrored drawdown halts. */
  ghost predicate OnlyDrawdownKill(p: Paper) {
    p.kill == KillOf(Halted(p.desk.risk))
  }

  lemma EngineHaltIsRiskHalt(p: Paper)
    requires OnlyDrawdownKill(p)
    ensures EngineHalted(p) <==> IsHalted(p.desk.risk)
  {
    HaltedIff(p.desk.risk);
    if k :| k in p.kill {
      assert exists r :: r in Halted(p.desk.risk) && k == Drawdown(r);
    }
  }

  lemma GateTwice(p: Paper, t: Target)
    requires OnlyDrawdownKill(p)
    ensures AllowedTargets(p, t) == GateTargets(p.desk.risk, [t])
  {
    EngineHaltIsRiskHalt(p);
    if IsHalted(p.desk.risk) {
      FilterAll(Filter([t], IsFlat()), IsFlat());
    }
  }

  // ------------------------------------------------------------- decisions

  lemma NothingQueued(d: Desk, submitTime: int)
    ensures QueueTargets(d, [], submitTime) == d
  {
    assert DeltaOrders(d.account.book, [], submitTime, d.account.orderSeq) == [];
    assert d.pending + [] == d.pending;
  }

  lemma DecideBarMirrors(
      p: Paper, r: Replay<()>, cfg: PaperConfig, strategy: Strategy<()>, v: View, w: View, b: Bar, wall: int)
    requires ConfigOk(cfg) && cfg.armed && Dispatches(strategy, cfg.bundles)
    requires p.desk == r.desk && OnlyDrawdownKill(p)
    requires b.symbol in cfg.bundles && SameHistory(v, w)
    ensures DecidePaperBar(p, cfg, v, b, wall).desk == DecideBar(r, strategy, w, b).desk
    ensures SameSurroundings(p, DecidePaperBar(p, cfg, v, b, wall))
  {
    var u := cfg.bundles[b.symbol];
    var s := TakeSnapshot(p.desk.account, p.desk.marks);
    VectorIsPointInTime(u.features, u.symbol, u.interval, v, w);
    assert OnBar(u, b, v, s) == OnBar(u, b, w, s);
    DecisionCarriesTheTarget(u, b, v, s);
    hide FeatureVector, OnBar, QueueTargets;
    var targets := OnBar(u, b, v, s);
    assert strategy(r.mind, b, w, s) == ((), targets) by { assert r.mind == (); }
    match Decide(u, b, v, s)
    case Warmup =>
      assert GateTargets(p.desk.risk, []) == [];
      NothingQueued(p.desk, w.now);
    case Decided(_, _, _, _, qty) =>
      GateTwice(p, Target(u.symbol, qty));
  }

  lemma {:induction false} DecideMirrors(
      p: Paper, r: Replay<()>, cfg: PaperConfig, strategy: Strategy<()>, v: View, w: View, group: seq<Bar>, wall: int)
    requires ConfigOk(cfg) && cfg.armed && Dispatches(strategy, cfg.bundles)
    requires p.desk == r.desk && OnlyDrawdownKill(p)
    requires (forall b :: b in group ==> b.symbol in cfg.bundles) && SameHistory(v, w)
    ensures DecidePaper(p, cfg, v, group, wall).desk == DecideGroup(r, strategy, w, group).desk
    ensures SameSurroundings(p, DecidePaper(p, cfg, v, group, wall))
    decreases |group|
  {
    if group != [] {
      var b := group[0];
      DecideBarMirrors(p, r, cfg, strategy, v, w, b, wall);
      var p', r' := DecidePaperBar(p, cfg, v, b, wall), DecideBar(r, strategy, w, b);
      assert r'.desk.risk == r.desk.risk;
      hide DecidePaperBar, DecideBar, SameHistory, Dispatches, Halted;
      DecideMirrors(p', r', cfg, strategy, v, w, group[1..], wall);
    }
  }

  // ------------------------------------------------------------- the engine's source

  lemma {:induction false} EnterBarsAppends(buffers: map<string, seq<Bar>>, group: seq<Bar>, s: string)
    ensures BufferOf(EnterBars(buffers, group), s) == BufferOf(buffers, s) + Filter(group, BySymbol(s))
    decreases |group|
  {
    if group != [] {
      var b := group[0];
      EnterBarsAppends(buffers[b.symbol := BufferOf(buffers, b.symbol) + [b]], group[1..], s);
    }
  }

  /** Each buffer holds only its own symbol. */
  ghost predicate OwnBuffers(buffers: map<string, seq<Bar>>, symbols: seq<string>) {
    forall s, b :: s in symbols && b in BufferOf(buffers, s) ==> b.symbol == s
  }

  lemma {:induction false} AllBarsOf(symbols: seq<string>, buffers: map<string, seq<Bar>>, s: string, p: Bar -> bool)
    requires Distinct(symbols) && OwnBuffers(buffers, symbols)
    requires forall b :: p(b) ==> b.symbol == s
    ensures Filter(AllBars(symbols, buffers), p) == if s in symbols then Filter(BufferOf(buffers, s), p) else []
  {
    if symbols != [] {
      var n := |symbols| - 1;
      var front, last := symbols[..n], symbols[n];
      AllBarsOf(front, buffers, s, p);
      FilterAppend(AllBars(front, buffers), BufferOf(buffers, last), p);
      assert last in symbols && symbols == front + [last];
      if last == s {
        assert s !in front;
      } else {
        FilterNone(BufferOf(buffers, last), p);
      }
    }
  }

  /** The step lemma: history over the buffers of the seen bars is history over the full source
      at the same clock. */
  lemma BufferHistory(cfg: PaperConfig, buffers: map<string, seq<Bar>>, bars: seq<Bar>, t: int, now: int)
    requires ConfigOk(cfg)
    requires SortedBy(bars, ReplayLeq) && forall b :: b in bars ==> Relevant(cfg)(b)
    requires now <= t + StepOf(cfg.interval)
    requires forall s :: s in cfg.symbols ==> BufferOf(buffers, s) == Filter(Filter(bars, UpTo(t)), BySymbol(s))
    ensures SameHistory(View(ReplaySort(AllBars(cfg.symbols, buffers)), now), View(bars, now))
  {
    var all := AllBars(cfg.symbols, buffers);
    var seen := Filter(bars, UpTo(t));
    forall symbol, iv: Interval, n: nat | n > 0
      ensures History(View(ReplaySort(all), now), symbol, iv, n) == History(View(bars, now), symbol, iv, n)
    {
      BufferHistoryOf(cfg, buffers, bars, t, now, symbol, iv);
      HistoryFromClosed(View(ReplaySort(all), now), symbol, iv, n);
      HistoryFromClosed(View(bars, now), symbol, iv, n);
    }
  }

  lemma BufferHistoryOf(
      cfg: PaperConfig, buffers: map<string, seq<Bar>>, bars: seq<Bar>, t: int, now: int, symbol: string, iv: Interval)
    requires ConfigOk(cfg)
    requires SortedBy(bars, ReplayLeq) && forall b :: b in bars ==> Relevant(cfg)(b)
    requires now <= t + StepOf(cfg.interval)
    requires forall s :: s in cfg.symbols ==> BufferOf(buffers, s) == Filter(Filter(bars, UpTo(t)), BySymbol(s))
    ensures Filter(ReplaySort(AllBars(cfg.symbols, buffers)), ClosedOf(symbol, iv, now))
         == Filter(bars, ClosedOf(symbol, iv, now))
  {
    var all := AllBars(cfg.symbols, buffers);
    var seen := Filter(bars, UpTo(t));
    var c := ClosedOf(symbol, iv, now);
    ReplayOrder();
    SortFilter(all, ReplayLeq, c);
    AllBarsOf(cfg.symbols, buffers, symbol, c);
    FilterFilter(bars, UpTo(t), c, c);
    if symbol in cfg.symbols {
      FilterFilter(seen, BySymbol(symbol), c, c);
    } else {
      FilterNone(bars, c);
    }
    assert Filter(all, c) == Filter(bars, c);
    FilterSorted(bars, ReplayLeq, c);
    SortOfSorted(Filter(bars, c), ReplayLeq);
  }

  // ------------------------------------------------------------- one group

  /** The engine mirrors the replay after the bars of `bars` up to time `t`. */
  ghost predicate Mirrors(p: Paper, r: Replay<()>, cfg: PaperConfig, seen: seq<Bar>) {
    && p.desk == r.desk
    && OnlyDrawdownKill(p)
    && (forall s :: s in cfg.symbols ==> BufferOf(p.buffers, s) == Filter(seen, BySymbol(s)))
  }

  function WorldOf(cfg: PaperConfig, bars: seq<Bar>): World {
    World(cfg.rules, StepOf(cfg.interval), bars)
  }

  lemma MarkedMirrors(p: Paper, r: Replay<()>, cfg: PaperConfig, bars: seq<Bar>, seen: seq<Bar>, g: seq<Bar>, wall: int)
    requires g != [] && Mirrors(p, r, cfg, seen)
    ensures var m := MarkedPaper(p, cfg, g, wall);
      && m.desk == CloseStep(WorldOf(cfg, bars), r.desk, g)
      && OnlyDrawdownKill(m)
      && m.buffers == EnterBars(p.buffers, g)
  {
    hide SyncHalts, CloseGroup, OpenGroup, OpenPaper, Halted, EnterBars;
    var arrived := Arrived(p, g);
    OpenPaperDesk(arrived, cfg, g, wall);
    var afterOpen := OpenPaper(arrived, cfg, g, wall);
    var closed := afterOpen.(desk := CloseGroup(afterOpen.desk, cfg.rules, g, g[0].time + StepOf(cfg.interval)));
    SyncMirrorsRisk(closed, wall);
    MirroredKill(MarkedPaper(p, cfg, g, wall));
  }

  lemma MirroredKill(m: Paper)
    requires DataStaleness !in m.kill && forall r :: Drawdown(r) in m.kill <==> r in Halted(m.desk.risk)
    ensures OnlyDrawdownKill(m)
  {
    hide Halted;
    forall k: KillReason ensures k in m.kill <==> k in KillOf(Halted(m.desk.risk)) {
      match k case DataStaleness => case Drawdown(r) =>
    }
  }

  lemma FinishKeeps(p: Paper, cfg: PaperConfig, close: int, wall: int)
    ensures var q := Finish(p, cfg, close, wall);
      && q.desk == p.desk && q.kill == p.kill && q.buffers == p.buffers && q.nFills == p.nFills
      && q.lastBarTime == p.lastBarTime && q.prevClose == Some(close) && q.saved == Some(StateFile(q, cfg))
  {
    hide Trimmed;
  }

  lemma BuffersGrow(p: Paper, cfg: PaperConfig, seen: seq<Bar>, g: seq<Bar>)
    requires forall s :: s in cfg.symbols ==> BufferOf(p.buffers, s) == Filter(seen, BySymbol(s))
    ensures forall s :: s in cfg.symbols ==> BufferOf(EnterBars(p.buffers, g), s) == Filter(seen + g, BySymbol(s))
  {
    forall s | s in cfg.symbols ensures BufferOf(EnterBars(p.buffers, g), s) == Filter(seen + g, BySymbol(s)) {
      EnterBarsAppends(p.buffers, g, s);
      FilterAppend(seen, g, BySymbol(s));
    }
  }

  lemma GroupMirrors(
      p: Paper, r: Replay<()>, cfg: PaperConfig, strategy: Strategy<()>, bars: seq<Bar>, seen: seq<Bar>,
      g: seq<Bar>, wall: int)
    requires ConfigOk(cfg) && cfg.armed && Dispatches(strategy, cfg.bundles)
    requires SortedBy(bars, ReplayLeq) && forall b :: b in bars ==> Relevant(cfg)(b)
    requires g != [] && OpensPositive(g) && (forall b :: b in g ==> b in bars)
    requires Filter(bars, UpTo(g[0].time)) == seen + g
    requires Mirrors(p, r, cfg, seen)
    ensures ProcessGroup(p, cfg, g, wall).1
    ensures Mirrors(ProcessGroup(p, cfg, g, wall).0, StepGroup(WorldOf(cfg, bars), strategy, r, g), cfg, seen + g)
  {
    hide MarkedPaper, CloseStep, SameHistory, Halted, EnterBars, ProcessGroup, StepGroup, Filter, BufferOf, PaperView;
    var m := MarkedPaper(p, cfg, g, wall);
    MarkedMirrors(p, r, cfg, bars, seen, g, wall);
    BuffersGrow(p, cfg, seen, g);
    ViewAgrees(m, cfg, bars, seen + g, g[0].time);
    GroupIsRelevant(cfg, bars, g);
    DecidedMirrors(p, m, Closed(WorldOf(cfg, bars), r, g), r, cfg, strategy, bars, seen + g, g, wall);
  }

  lemma GroupIsRelevant(cfg: PaperConfig, bars: seq<Bar>, g: seq<Bar>)
    requires (forall b :: b in bars ==> Relevant(cfg)(b)) && forall b :: b in g ==> b in bars
    ensures forall b :: b in g ==> b.symbol in cfg.bundles
  {
    assert forall b :: b in g ==> Relevant(cfg)(b);
  }

  lemma ViewAgrees(m: Paper, cfg: PaperConfig, bars: seq<Bar>, seen: seq<Bar>, t: int)
    requires ConfigOk(cfg)
    requires SortedBy(bars, ReplayLeq) && forall b :: b in bars ==> Relevant(cfg)(b)
    requires Filter(bars, UpTo(t)) == seen
    requires forall s :: s in cfg.symbols ==> BufferOf(m.buffers, s) == Filter(seen, BySymbol(s))
    ensures SameHistory(PaperView(m, cfg, t + StepOf(cfg.interval)), View(bars, t + StepOf(cfg.interval)))
  {
    hide SameHistory, Filter, AllBars, ReplaySort, BufferOf, Relevant, SortedBy, ConfigOk, BySymbol, UpTo, StepOf;
    BufferHistory(cfg, m.buffers, bars, t, t + StepOf(cfg.interval));
  }

  lemma DecidedMirrors(
      p: Paper, m: Paper, c: Replay<()>, r: Replay<()>, cfg: PaperConfig, strategy: Strategy<()>, bars: seq<Bar>,
      seen: seq<Bar>, g: seq<Bar>, wall: int)
    requires ConfigOk(cfg) && cfg.armed && Dispatches(strategy, cfg.bundles)
    requires g != [] && OpensPositive(g) && forall b :: b in g ==> b.symbol in cfg.bundles
    requires m == MarkedPaper(p, cfg, g, wall) && c == Closed(WorldOf(cfg, bars), r, g)
    requires Mirrors(m, c, cfg, seen)
    requires SameHistory(PaperView(m, cfg, g[0].time + StepOf(cfg.interval)), View(bars, g[0].time + StepOf(cfg.interval)))
    ensures ProcessGroup(p, cfg, g, wall).1
    ensures Mirrors(ProcessGroup(p, cfg, g, wall).0, StepGroup(WorldOf(cfg, bars), strategy, r, g), cfg, seen)
  {
    hide MarkedPaper, Closed, SameHistory, Halted, DecidePaper, DecideGroup, Finish, PaperView, Filter, Dispatches, BufferOf;
    var close := g[0].time + StepOf(cfg.interval);
    var v := PaperView(m, cfg, close);
    DecideMirrors(m, c, cfg, strategy, v, View(bars, close), g, wall);
    DecideKeepsClock(c, strategy, View(bars, close), g);
    FinishKeeps(DecidePaper(m, cfg, v, g, wall), cfg, close, wall);
  }

  // ------------------------------------------------------------- the whole feed

  /** `ReplayFeed`: the bars sorted once and delivered group by group, each as one batch. */
  function FeedRun(p: Paper, cfg: PaperConfig, groups: seq<seq<Bar>>, wall: int -> int): (Paper, bool)
    requires BundlesOk(cfg.bundles)
  {
    if groups == [] then (p, true)
    else
      var n := |groups| - 1;
      var (q, ok) := FeedRun(p, cfg, groups[..n], wall);
      if !ok then (q, false) else ProcessBatch(q, cfg, groups[n], wall(n))
  }

  lemma BatchOfGroup(p: Paper, cfg: PaperConfig, g: seq<Bar>, wall: int)
    requires BundlesOk(cfg.bundles)
    requires g != [] && SortedBy(g, ReplayLeq) && SameTime(g) && forall b :: b in g ==> Relevant(cfg)(b)
    ensures ProcessBatch(p, cfg, g, wall) == ProcessGroup(p, cfg, g, wall)
  {
    FilterAll(g, Relevant(cfg));
    SortOfSorted(g, ReplayLeq);
    OneGroup(g);
    hide ProcessGroup;
    var (p', ok) := ProcessGroup(p, cfg, g, wall);
    assert [g][1..] == [];
    assert ProcessGroups(p', cfg, [], wall) == (p', true);
  }

  lemma RunPrefix(w: World, strategy: Strategy<()>, r: Replay<()>, groups: seq<seq<Bar>>, n: nat)
    requires NonEmptyGroups(groups) && n < |groups|
    ensures var before := RunGroups(w, strategy, r, groups[..n]);
      RunGroups(w, strategy, r, groups[..n + 1]) ==
        match before
        case Failure(e) => Failure(e)
        case Success(m) =>
          if groups[n][0].time < m.now then Failure(ClockMovedBackward)
          else if !OpensPositive(groups[n]) then Failure(NonPositiveOpen)
          else Success(StepGroup(w, strategy, m, groups[n]))
  {
    assert groups[..n + 1] == groups[..n] + [groups[n]];
    RunAppend(w, strategy, r, groups[..n], [groups[n]]);
    var before := RunGroups(w, strategy, r, groups[..n]);
    if before.Success? {
      RunFirst(w, strategy, before.value, groups[n], []);
      assert [groups[n]] + [] == [groups[n]];
    }
  }

  /** Refinement. An armed, unseeded engine that has seen no staleness trip, fed any bars of its
      own symbols and interval, mirrors the backtest of those bars (per-symbol strategies
      dispatched by symbol, same costs, limits and calendar) after each group the backtest
      completes: `p.desk == r.desk` is equality of fills with their order ids, cash, positions,
      equity curve, order sequence, pending queue, risk state and marks. */
  lemma {:induction false} PaperRefinesBacktest(
      cfg: PaperConfig, bars: seq<Bar>, strategy: Strategy<()>, start: int, wall: int -> int, n: nat)
    requires ConfigOk(cfg) && cfg.armed && Dispatches(strategy, cfg.bundles)
    requires forall b :: b in bars ==> Relevant(cfg)(b)
    requires n <= |Groups(ReplaySort(bars))|
    requires var sorted := ReplaySort(bars);
      RunGroups(WorldOf(cfg, sorted), strategy, Start(cfg.initialEquity, NewRisk(cfg.initialEquity), (), start),
                Groups(sorted)[..n]).Success?
    ensures var sorted := ReplaySort(bars);
      var (p, ok) := FeedRun(NewPaper(cfg), cfg, Groups(sorted)[..n], wall);
      var r := RunGroups(WorldOf(cfg, sorted), strategy, Start(cfg.initialEquity, NewRisk(cfg.initialEquity), (), start),
                         Groups(sorted)[..n]).value;
      ok && Mirrors(p, r, cfg, Flatten(Groups(sorted)[..n]))
  {
    hide *;
    ConfigBundles(cfg);
    var sorted := ReplaySort(bars);
    var groups := Groups(sorted);
    var w := WorldOf(cfg, sorted);
    var r0 := Start(cfg.initialEquity, NewRisk(cfg.initialEquity), (), start);
    GroupsNonEmpty(sorted);
    if n == 0 {
      NothingFed(cfg, w, strategy, groups, start, wall);
    } else {
      var m := n - 1;
      RunPrefix(w, strategy, r0, groups, m);
      FeedNext(NewPaper(cfg), cfg, groups, m, wall);
      PaperRefinesBacktest(cfg, bars, strategy, start, wall, m);
      FeedStep(cfg, bars, strategy, RunGroups(w, strategy, r0, groups[..m]).value,
               FeedRun(NewPaper(cfg), cfg, groups[..m], wall).0, m, wall(m));
    }
  }

  lemma ConfigBundles(cfg: PaperConfig)
    requires ConfigOk(cfg)
    ensures BundlesOk(cfg.bundles) && forall s :: s in cfg.symbols <==> s in cfg.bundles
  {
  }

  lemma FeedNext(p: Paper, cfg: PaperConfig, groups: seq<seq<Bar>>, m: nat, wall: int -> int)
    requires BundlesOk(cfg.bundles) && m < |groups|
    ensures FeedRun(p, cfg, groups[..m + 1], wall)
         == var (q, ok) := FeedRun(p, cfg, groups[..m], wall);
            if !ok then (q, false) else ProcessBatch(q, cfg, groups[m], wall(m))
  {
    hide ProcessBatch;
    assert groups[..m + 1][..m] == groups[..m];
  }

  lemma NothingFed(
      cfg: PaperConfig, w: World, strategy: Strategy<()>, groups: seq<seq<Bar>>, start: int, wall: int -> int)
    requires BundlesOk(cfg.bundles) && NonEmptyGroups(groups)
    ensures FeedRun(NewPaper(cfg), cfg, groups[..0], wall) == (NewPaper(cfg), true)
    ensures var r0 := Start(cfg.initialEquity, NewRisk(cfg.initialEquity), (), start);
      && RunGroups(w, strategy, r0, groups[..0]) == Success(r0)
      && Mirrors(NewPaper(cfg), r0, cfg, Flatten(groups[..0]))
  {
    hide Mirrors;
    FreshMirrors(cfg, start);
  }

  lemma FreshMirrors(cfg: PaperConfig, start: int)
    ensures Mirrors(NewPaper(cfg), Start(cfg.initialEquity, NewRisk(cfg.initialEquity), (), start), cfg, [])
  {
  }

  lemma FeedStep(cfg: PaperConfig, bars: seq<Bar>, strategy: Strategy<()>, r: Replay<()>, p: Paper, m: nat, wall: int)
    requires ConfigOk(cfg) && cfg.armed && Dispatches(strategy, cfg.bundles)
    requires forall b :: b in bars ==> Relevant(cfg)(b)
    requires m < |Groups(ReplaySort(bars))| && OpensPositive(Groups(ReplaySort(bars))[m])
    requires Mirrors(p, r, cfg, Flatten(Groups(ReplaySort(bars))[..m]))
    ensures var sorted := ReplaySort(bars); var g := Groups(sorted)[m];
      var (p', ok) := ProcessBatch(p, cfg, g, wall);
      ok && Mirrors(p', StepGroup(WorldOf(cfg, sorted), strategy, r, g), cfg, Flatten(Groups(sorted)[..m + 1]))
  {
    var sorted := ReplaySort(bars);
    ReplaySortOrdered(bars);
    FeedGroup(cfg, sorted, strategy, r, p, m, wall);
  }

  lemma FeedGroup(cfg: PaperConfig, sorted: seq<Bar>, strategy: Strategy<()>, r: Replay<()>, p: Paper, m: nat, wall: int)
    requires ConfigOk(cfg) && cfg.armed && Dispatches(strategy, cfg.bundles)
    requires SortedBy(sorted, ReplayLeq) && TimeOrdered(sorted) && forall b :: b in sorted ==> Relevant(cfg)(b)
    requires m < |Groups(sorted)| && OpensPositive(Groups(sorted)[m])
    requires Mirrors(p, r, cfg, Flatten(Groups(sorted)[..m]))
    ensures var g := Groups(sorted)[m];
      var (p', ok) := ProcessBatch(p, cfg, g, wall);
      ok && Mirrors(p', StepGroup(WorldOf(cfg, sorted), strategy, r, g), cfg, Flatten(Groups(sorted)[..m + 1]))
  {
    hide Mirrors, StepGroup, ProcessGroup, ProcessBatch, Groups, SortedBy, Dispatches;
    var groups := Groups(sorted);
    var g := groups[m];
    var seen := GroupPosition(sorted, m);
    BatchOfGroup(p, cfg, g, wall);
    GroupMirrors(p, r, cfg, strategy, sorted, seen, g, wall);
    assert groups[..m + 1] == groups[..m] + [g];
    FlattenSnoc(groups[..m], g);
  }
}
