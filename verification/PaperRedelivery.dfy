/** Running on after a crash inside a group (paper/engine.py `process_bar_group`, `_restore_state`,
    `seed_history`): what the restarted engine does when the group comes again, when it does not, and
    what seeding can still bring back. */
module PaperRedelivery {
  import opened Collections
  import opened Market
  import opened Merging
  import opened Timeline
  import opened Source
  import opened Oms
  import opened Venue
  import opened Risk
  import opened Desk
  import opened Accounting
  import opened Commitment
  import opened Strategies
  import opened PaperState
  import opened PaperRefinement
  import opened PaperRecovery
  import opened PaperHalts
  import opened PaperOrders
  import opened PaperCurve
  import opened PaperCrash
  import opened PaperResume
  import opened PaperSeed

  // ------------------------------------------------------------- the decision counter is inert

  /** The same engine, having counted `k` decisions more. */
  function Older(p: Paper, k: nat): Paper {
    p.(nDecisions := p.nDecisions + k)
  }

  lemma {:induction false} SettleOlder(p: Paper, k: nat, fills: seq<Fill>, wall: int)
    ensures SettleFills(Older(p, k), fills, wall) == Older(SettleFills(p, fills, wall), k)
    decreases |fills|
  {
    if fills != [] {
      hide KindOf, Equity, Settle;
      assert SettleFill(Older(p, k), fills[0], wall) == Older(SettleFill(p, fills[0], wall), k);
      SettleOlder(SettleFill(p, fills[0], wall), k, fills[1..], wall);
    }
  }

  lemma {:induction false} OpenOlder(p: Paper, k: nat, cfg: PaperConfig, group: seq<Bar>, wall: int)
    ensures OpenPaper(Older(p, k), cfg, group, wall) == Older(OpenPaper(p, cfg, group, wall), k)
    decreases |group|
  {
    hide SettleFills, FillsOf, Filter;
    if group != [] && group[0].open > 0.0 {
      var b := group[0];
      var taken := p.(desk := p.desk.(pending := Filter(p.desk.pending, OrderNotFor(b.symbol))));
      SettleOlder(taken, k, FillsOf(cfg.rules.costs, Filter(p.desk.pending, OrderFor(b.symbol)), b.open, b.time), wall);
      assert OpenPaperBar(Older(p, k), cfg, b, wall) == Older(OpenPaperBar(p, cfg, b, wall), k);
      OpenOlder(OpenPaperBar(p, cfg, b, wall), k, cfg, group[1..], wall);
    }
  }

  lemma ReasonOlder(p: Paper, k: nat, h: set<Reason>, r: Reason, wall: int)
    ensures TripReason(Older(p, k), h, r, wall) == Older(TripReason(p, h, r, wall), k)
    ensures ClearReason(Older(p, k), h, r, wall) == Older(ClearReason(p, h, r, wall), k)
  {
  }

  lemma SyncOlder(p: Paper, k: nat, wall: int)
    ensures SyncHalts(Older(p, k), wall) == Older(SyncHalts(p, wall), k)
  {
    hide Halted, TripReason, ClearReason;
    var h := Halted(p.desk.risk);
    ReasonOlder(p, k, h, DailyDd, wall);
    var p1 := TripReason(p, h, DailyDd, wall);
    ReasonOlder(p1, k, h, MonthlyDd, wall);
    var p2 := TripReason(p1, h, MonthlyDd, wall);
    ReasonOlder(p2, k, h, WeeklyDd, wall);
    var p3 := TripReason(p2, h, WeeklyDd, wall);
    ReasonOlder(p3, k, h, DailyDd, wall);
    var p4 := ClearReason(p3, h, DailyDd, wall);
    ReasonOlder(p4, k, h, WeeklyDd, wall);
    ReasonOlder(ClearReason(p4, h, WeeklyDd, wall), k, h, MonthlyDd, wall);
  }

  lemma MarkedOlder(p: Paper, k: nat, cfg: PaperConfig, group: seq<Bar>, wall: int)
    requires group != []
    ensures MarkedPaper(Older(p, k), cfg, group, wall) == Older(MarkedPaper(p, cfg, group, wall), k)
  {
    hide OpenPaper, SyncHalts, CloseGroup, EnterBars;
    assert Arrived(Older(p, k), group) == Older(Arrived(p, group), k);
    OpenOlder(Arrived(p, group), k, cfg, group, wall);
    var filled := OpenPaper(Arrived(p, group), cfg, group, wall);
    SyncOlder(filled.(desk := CloseGroup(filled.desk, cfg.rules, group, group[0].time + StepOf(cfg.interval))), k, wall);
  }

  lemma DecisionOlder(p: Paper, k: nat, cfg: PaperConfig, view: View, b: Bar, wall: int)
    requires BundlesOk(cfg.bundles)
    ensures DecidePaperBar(Older(p, k), cfg, view, b, wall) == Older(DecidePaperBar(p, cfg, view, b, wall), k)
  {
    hide Strategies.Decide, QueueTargets, GateTargets, IsHalted, Filter, BundlesOk;
  }

  lemma {:induction false} DecideOlder(p: Paper, k: nat, cfg: PaperConfig, view: View, group: seq<Bar>, wall: int)
    requires BundlesOk(cfg.bundles)
    ensures DecidePaper(Older(p, k), cfg, view, group, wall) == Older(DecidePaper(p, cfg, view, group, wall), k)
    decreases |group|
  {
    hide DecidePaperBar, Older, BundlesOk;
    if group != [] {
      DecisionOlder(p, k, cfg, view, group[0], wall);
      DecideOlder(DecidePaperBar(p, cfg, view, group[0], wall), k, cfg, view, group[1..], wall);
    }
  }

  lemma FinishOlder(p: Paper, k: nat, cfg: PaperConfig, close: int, wall: int)
    ensures Finish(Older(p, k), cfg, close, wall) == Older(Finish(p, cfg, close, wall), k)
  {
    hide Trimmed, Reports;
    assert Reports(Older(p, k), cfg.rules.cal, close, wall) == Older(Reports(p, cfg.rules.cal, close, wall), k) by {
      ReportsOlder(p, k, cfg.rules.cal, close, wall);
    }
  }

  lemma ReportsOlder(p: Paper, k: nat, cal: Calendar, close: int, wall: int)
    ensures Reports(Older(p, k), cal, close, wall) == Older(Reports(p, cal, close, wall), k)
  {
  }

  lemma ViewOlder(p: Paper, k: nat, cfg: PaperConfig, now: int)
    ensures PaperView(Older(p, k), cfg, now) == PaperView(p, cfg, now)
  {
  }

  lemma GroupOlder(p: Paper, k: nat, cfg: PaperConfig, group: seq<Bar>, wall: int)
    requires group != [] && BundlesOk(cfg.bundles)
    ensures ProcessGroup(Older(p, k), cfg, group, wall)
         == (Older(ProcessGroup(p, cfg, group, wall).0, k), ProcessGroup(p, cfg, group, wall).1)
  {
    hide MarkedPaper, OpenPaper, DecidePaper, Finish, PaperView, EnterBars, OpensPositive, BundlesOk;
    if !OpensPositive(group) {
      OpenOlder(Arrived(p, group), k, cfg, group, wall);
      assert Arrived(Older(p, k), group) == Older(Arrived(p, group), k);
    } else {
      var close := group[0].time + StepOf(cfg.interval);
      var m := MarkedPaper(p, cfg, group, wall);
      MarkedOlder(p, k, cfg, group, wall);
      ViewOlder(m, k, cfg, close);
      DecideOlder(m, k, cfg, PaperView(m, cfg, close), group, wall);
      FinishOlder(DecidePaper(m, cfg, PaperView(m, cfg, close), group, wall), k, cfg, close, wall);
    }
  }

  /** The count of decisions reaches nothing else: over any groups an engine that has counted more
      of them is the same engine with the higher count. */
  lemma {:induction false} DecisionCountIsInert(p: Paper, k: nat, cfg: PaperConfig, groups: seq<seq<Bar>>, wall: int)
    requires NonEmptyGroups(groups) && BundlesOk(cfg.bundles)
    ensures ProcessGroups(Older(p, k), cfg, groups, wall)
         == (Older(ProcessGroups(p, cfg, groups, wall).0, k), ProcessGroups(p, cfg, groups, wall).1)
    decreases |groups|
  {
    hide ProcessGroup, Older;
    if groups != [] {
      GroupOlder(p, k, cfg, groups[0], wall);
      var (q, ok) := ProcessGroup(p, cfg, groups[0], wall);
      if ok {
        DecisionCountIsInert(q, k, cfg, groups[1..], wall);
      }
    }
  }

  // ------------------------------------------------------------- what the interrupted group left in the journal

  /** No queued order was for a bar opened so far: none has filled. */
  predicate NothingFilled(p: Paper, group: seq<Bar>, at: CrashPoint)
    requires at.bars <= |group|
  {
    match at
    case Opening(n) => forall o :: o in p.desk.pending ==> !HasSymbol(group[..n], o.symbol)
    case Filling(_, _) => false
    case Deciding(_) => forall o :: o in p.desk.pending ==> !HasSymbol(group, o.symbol)
  }

  function Known(cfg: PaperConfig, bars: seq<Bar>): nat {
    if bars == [] then 0 else (if bars[0].symbol in cfg.bundles then 1 else 0) + Known(cfg, bars[1..])
  }

  /** Decisions journalled so far. */
  function Told(cfg: PaperConfig, group: seq<Bar>, at: CrashPoint): nat
    requires at.bars <= |group|
  {
    if at.Deciding? then Known(cfg, group[..at.bars]) else 0
  }

  lemma {:induction false} OpenUntouched(p: Paper, cfg: PaperConfig, bars: seq<Bar>, wall: int)
    requires forall o :: o in p.desk.pending ==> !HasSymbol(bars, o.symbol)
    ensures OpenPaper(p, cfg, bars, wall) == p
    decreases |bars|
  {
    if bars != [] && bars[0].open > 0.0 {
      hide FillOf, HasSymbol;
      forall o | o in p.desk.pending ensures o.symbol != bars[0].symbol && !HasSymbol(bars[1..], o.symbol) {
        HasSymbolStep(bars, o.symbol);
      }
      FilterNone(p.desk.pending, OrderFor(bars[0].symbol));
      FilterAll(p.desk.pending, OrderNotFor(bars[0].symbol));
      assert SettleFills(p, [], wall) == p;
      OpenUntouched(p, cfg, bars[1..], wall);
    }
  }

  lemma {:induction false} DecideTells(p: Paper, cfg: PaperConfig, view: View, bars: seq<Bar>, wall: int)
    requires BundlesOk(cfg.bundles)
    ensures EssenceOf(DecidePaper(p, cfg, view, bars, wall)) == EssenceOf(Older(p, Known(cfg, bars)))
    decreases |bars|
  {
    if bars != [] {
      hide Strategies.Decide, DeltaOrders, AllowedTargets, EngineHalted;
      DecideTells(DecidePaperBar(p, cfg, view, bars[0], wall), cfg, view, bars[1..], wall);
    }
  }

  lemma MarkedEssence(p: Paper, cfg: PaperConfig, group: seq<Bar>, wall: int)
    requires group != []
    ensures EssenceOf(MarkedPaper(p, cfg, group, wall)) == EssenceOf(OpenPaper(Arrived(p, group), cfg, group, wall))
  {
    hide OpenPaper, SyncHalts, RiskUpdate, MarkGroup, EnterBars;
    var filled := OpenPaper(Arrived(p, group), cfg, group, wall);
    SyncMirrorsRisk(filled.(desk := CloseGroup(filled.desk, cfg.rules, group, group[0].time + StepOf(cfg.interval))), wall);
  }

  lemma {:induction false} SettleKeepsCount(p: Paper, fills: seq<Fill>, wall: int)
    ensures SettleFills(p, fills, wall).nDecisions == p.nDecisions
    decreases |fills|
  {
    if fills != [] {
      hide KindOf, Equity, Settle;
      SettleKeepsCount(SettleFill(p, fills[0], wall), fills[1..], wall);
    }
  }

  lemma {:induction false} OpenKeepsCount(p: Paper, cfg: PaperConfig, bars: seq<Bar>, wall: int)
    ensures OpenPaper(p, cfg, bars, wall).nDecisions == p.nDecisions
    decreases |bars|
  {
    hide SettleFills, FillsOf, Filter;
    if bars != [] && bars[0].open > 0.0 {
      var b := bars[0];
      SettleKeepsCount(p.(desk := p.desk.(pending := Filter(p.desk.pending, OrderNotFor(b.symbol)))),
                       FillsOf(cfg.rules.costs, Filter(p.desk.pending, OrderFor(b.symbol)), b.open, b.time), wall);
      OpenKeepsCount(OpenPaperBar(p, cfg, b, wall), cfg, bars[1..], wall);
    }
  }

  /** Opening these bars fills something exactly when an order is queued for one of them. */
  lemma OpenFillsIff(p: Paper, cfg: PaperConfig, bars: seq<Bar>, wall: int)
    requires OpensPositive(bars)
    ensures var q := OpenPaper(p, cfg, bars, wall);
      q.nFills >= p.nFills && q.nDecisions == p.nDecisions
      && (q.nFills == p.nFills <==> forall o :: o in p.desk.pending ==> !HasSymbol(bars, o.symbol))
      && (q.nFills == p.nFills ==> EssenceOf(q) == EssenceOf(p))
  {
    hide OpenPaper, OpenGroup, HasSymbol, OpensPositive, Filter, NotIn;
    OpenCounts(p, cfg, bars, wall);
    OpenKeepsCount(p, cfg, bars, wall);
    OpenPaperDesk(p, cfg, bars, wall);
    OpenDrains(p.desk, cfg.rules.costs, bars);
    DrainsNothing(p.desk.pending, bars);
    if forall o :: o in p.desk.pending ==> !HasSymbol(bars, o.symbol) {
      OpenUntouched(p, cfg, bars, wall);
    }
  }

  /** The books at the crash: the decisions told are counted, and the rest is as it was exactly when
      nothing had filled. */
  lemma CrashedBooks(p: Paper, cfg: PaperConfig, group: seq<Bar>, wall: int, at: CrashPoint)
    requires group != [] && BundlesOk(cfg.bundles) && Reached(p, cfg, group, wall, at)
    ensures var c := CrashedAt(p, cfg, group, wall, at);
      && c.nDecisions == p.nDecisions + Told(cfg, group, at) && c.nFills >= p.nFills
      && (c.nFills == p.nFills <==> NothingFilled(p, group, at))
      && (NothingFilled(p, group, at) ==> EssenceOf(c) == EssenceOf(Older(p, Told(cfg, group, at))))
      && c.lastBarTime == Some(group[0].time) && c.saved == p.saved
  {
    hide OpenPaper, MarkedPaper, DecidePaper, PaperView, EnterBars, HasSymbol, OpensPositive, SettleFills, FillsOf, Filter, BundlesOk, Known;
    var arrived := Arrived(p, group);
    match at
    case Opening(n) =>
      OpenFillsIff(arrived, cfg, group[..n], wall);
      OpenPaperDesk(arrived, cfg, group[..n], wall);
    case Filling(n, k) =>
      PositivePrefix(group, n);
      OpenFillsIff(arrived, cfg, group[..n], wall);
      OpenPaperDesk(arrived, cfg, group[..n], wall);
      FillingCounts(p, cfg, group, wall, at);
    case Deciding(n) =>
      var m := MarkedPaper(p, cfg, group, wall);
      var view := PaperView(m, cfg, group[0].time + StepOf(cfg.interval));
      OpenFillsIff(arrived, cfg, group, wall);
      MarkedEssence(p, cfg, group, wall);
      DecideTells(m, cfg, view, group[..n], wall);
      DecisionsReach(m, cfg, view, group[..n], wall);
      MarkedTimes(p, cfg, group, wall);
      DecideKeepsTimes(m, cfg, view, group[..n], wall);
  }

  lemma FillingCounts(p: Paper, cfg: PaperConfig, group: seq<Bar>, wall: int, at: CrashPoint)
    requires group != [] && BundlesOk(cfg.bundles) && Reached(p, cfg, group, wall, at) && at.Filling?
    ensures var c := CrashedAt(p, cfg, group, wall, at); var before := OpenedTo(p, cfg, group, at.bars, wall);
      c.nFills == before.nFills + at.fills && c.nDecisions == before.nDecisions
      && c.lastBarTime == before.lastBarTime && c.saved == before.saved
  {
    hide OpenedTo, SettleFills, Filter, OpensPositive;
    var before := OpenedTo(p, cfg, group, at.bars, wall);
    var taken := before.(desk := before.desk.(pending := Filter(before.desk.pending, OrderNotFor(group[at.bars].symbol))));
    var fills := FillsOf(cfg.rules.costs, Hits(p, cfg, group, at.bars, wall), group[at.bars].open, group[at.bars].time);
    SettleCounts(taken, fills[..at.fills], wall);
    SettleKeepsCount(taken, fills[..at.fills], wall);
    SettleFillsDesk(taken, fills[..at.fills], wall);
  }

  lemma MarkedTimes(p: Paper, cfg: PaperConfig, group: seq<Bar>, wall: int)
    requires group != [] && OpensPositive(group)
    ensures MarkedPaper(p, cfg, group, wall).lastBarTime == Some(group[0].time)
    ensures MarkedPaper(p, cfg, group, wall).saved == p.saved
  {
    hide ClosePaper, OpenPaper, OpensPositive;
    TimesSoFar(p, cfg, group, group[0].time + StepOf(cfg.interval), wall);
    MarkedQueue(p, cfg, group, wall);
  }

  // ------------------------------------------------------------- the restarted engine

  /** The state file is up to date: a restart now would bring the engine back, order ids, risk memory
      and old bars aside. */
  ghost predicate Recoverable(p: Paper, cfg: PaperConfig, t: int) {
    Journalled(p, cfg) && Resumed(p, Restart(cfg, p.journal, p.saved), cfg, t)
  }

  lemma BoundaryIsRecoverable(p: Paper, cfg: PaperConfig, t: int)
    requires ConfigOk(cfg) && AtBoundary(p, cfg, t)
    ensures Recoverable(p, cfg, t)
  {
    hide ConfigOk, Resumed, Restart, Journalled, FollowsCurve, BuffersOk, StateFile;
    RestartResumes(p, cfg, t);
  }

  lemma NewIsRecoverable(cfg: PaperConfig, t: int)
    requires ConfigOk(cfg)
    ensures Recoverable(NewPaper(cfg), cfg, t)
  {
    hide ConfigOk, LastN, Keep;
    assert RecallAll(NewPaper(cfg), []) == NewPaper(cfg);
  }

  /** Two restarts over the same state file differ in their books alone. */
  lemma SameStateFile(cfg: PaperConfig, j: seq<Entry>, k: seq<Entry>, saved: Option<Saved>)
    ensures var q, r := Restart(cfg, j, saved), Restart(cfg, k, saved);
      && q.desk.pending == r.desk.pending && q.desk.marks == r.desk.marks && q.buffers == r.buffers
      && q.lastBarTime == r.lastBarTime && q.prevClose == r.prevClose
  {
    hide RecallAll;
    RecallIsRemember(NewPaper(cfg), j);
    RecallIsRemember(NewPaper(cfg), k);
  }

  /** The restarted engine with its count of decisions set back to the former one's. */
  function Recounted(q: Paper, p: Paper): Paper {
    q.(nDecisions := p.nDecisions)
  }

  lemma RestartBooks(cfg: PaperConfig, c: Paper)
    requires Journalled(c, cfg)
    ensures EssenceOf(Restart(cfg, c.journal, c.saved)) == EssenceOf(c)
  {
    hide RecallAll, RememberAll;
    RecallIsRemember(NewPaper(cfg), c.journal);
  }

  /** After any crash inside the group: the queue is the saved one, and the counters are the former
      ones plus what the group had filled and decided. */
  lemma CrashCounters(p: Paper, cfg: PaperConfig, t: int, group: seq<Bar>, wall: int, at: CrashPoint)
    requires group != [] && BundlesOk(cfg.bundles) && Recoverable(p, cfg, t) && Reached(p, cfg, group, wall, at)
    ensures at.bars <= |group|
    ensures var q := AfterCrash(p, cfg, group, wall, at);
      && q == Older(Recounted(q, p), Told(cfg, group, at)) && q.nFills >= p.nFills
      && (q.nFills == p.nFills <==> NothingFilled(p, group, at))
      && Unnumbered(q.desk.pending) == Unnumbered(p.desk.pending)
      && (NothingFilled(p, group, at) ==> Resumed(p, Recounted(q, p), cfg, t))
  {
    hide CrashedAt, Reached, Restart, NothingFilled, Told, RememberAll, BuffersOk, SameTails, BundlesOk, Unnumbered;
    ReachedBars(p, cfg, group, wall, at);
    var c := CrashedAt(p, cfg, group, wall, at);
    CrashedBooks(p, cfg, group, wall, at);
    CrashKeeps(p, cfg, group, wall, at);
    RestartBooks(cfg, c);
    RestartBooks(cfg, p);
    SameStateFile(cfg, c.journal, p.journal, p.saved);
    TailsCarryOver(p, Restart(cfg, p.journal, p.saved), Recounted(AfterCrash(p, cfg, group, wall, at), p), cfg, t);
  }

  lemma ReachedBars(p: Paper, cfg: PaperConfig, group: seq<Bar>, wall: int, at: CrashPoint)
    requires group != [] && Reached(p, cfg, group, wall, at)
    ensures at.bars <= |group|
  {
  }

  lemma TailsCarryOver(p: Paper, q: Paper, r: Paper, cfg: PaperConfig, t: int)
    requires BuffersOk(q.buffers, cfg, t) && SameTails(p, q, cfg) && r.buffers == q.buffers
    ensures BuffersOk(r.buffers, cfg, t) && SameTails(p, r, cfg)
  {
  }

  // ------------------------------------------------------------- one engine that filled more

  lemma {:induction false} OpenLeavesAsMany(d: Desk, e: Desk, costs: Costs, group: seq<Bar>)
    requires Unnumbered(d.pending) == Unnumbered(e.pending)
    ensures |OpenGroup(d, costs, group).pending| == |OpenGroup(e, costs, group).pending|
    decreases |group|
  {
    hide Filter, FillsOf, ApplyFills, Unnumbered;
    if group != [] && group[0].open > 0.0 {
      UnnumberedFilter(d.pending, OrderNotFor(group[0].symbol));
      UnnumberedFilter(e.pending, OrderNotFor(group[0].symbol));
      OpenLeavesAsMany(OpenBar(d, costs, group[0]), OpenBar(e, costs, group[0]), costs, group[1..]);
    } else {
      assert |d.pending| == |Unnumbered(d.pending)| == |e.pending|;
    }
  }

  lemma GroupFills(p: Paper, cfg: PaperConfig, g: seq<Bar>, wall: int)
    requires BundlesOk(cfg.bundles) && g != []
    ensures ProcessGroup(p, cfg, g, wall).0.nFills + |OpenGroup(p.desk, cfg.rules.costs, g).pending| == p.nFills + |p.desk.pending|
    ensures ProcessGroup(p, cfg, g, wall).0.nDecisions == p.nDecisions + (if OpensPositive(g) then Known(cfg, g) else 0)
  {
    hide OpenPaper, MarkedPaper, DecidePaper, PaperView, EnterBars, OpenGroup, OpensPositive, BundlesOk;
    var arrived := Arrived(p, g);
    OpenCounts(arrived, cfg, g, wall);
    OpenKeepsCount(arrived, cfg, g, wall);
    OpenPaperDesk(arrived, cfg, g, wall);
    if OpensPositive(g) {
      var close := g[0].time + StepOf(cfg.interval);
      var m := MarkedPaper(p, cfg, g, wall);
      MarkedEssence(p, cfg, g, wall);
      DecideTells(m, cfg, PaperView(m, cfg, close), g, wall);
      FinishEssence(DecidePaper(m, cfg, PaperView(m, cfg, close), g, wall), cfg, close, wall);
    }
  }

  lemma FinishEssence(p: Paper, cfg: PaperConfig, close: int, wall: int)
    ensures EssenceOf(Finish(p, cfg, close, wall)) == EssenceOf(p)
  {
    hide Trimmed;
  }

  /** An engine that has counted more fills or more decisions stays ahead by as many. */
  lemma CountersStayApart(p: Paper, q: Paper, cfg: PaperConfig, g: seq<Bar>, wall: int)
    requires BundlesOk(cfg.bundles) && g != [] && Unnumbered(p.desk.pending) == Unnumbered(q.desk.pending)
    requires p.nFills != q.nFills || p.nDecisions != q.nDecisions
    ensures CoreOf(ProcessGroup(p, cfg, g, wall).0) != CoreOf(ProcessGroup(q, cfg, g, wall).0)
  {
    hide ProcessGroup, OpenGroup, Unnumbered, OpensPositive, Known, BundlesOk;
    GroupFills(p, cfg, g, wall);
    GroupFills(q, cfg, g, wall);
    OpenLeavesAsMany(p.desk, q.desk, cfg.rules.costs, g);
    assert |p.desk.pending| == |Unnumbered(p.desk.pending)| == |q.desk.pending|;
  }

  // ------------------------------------------------------------- the laws

  /** The run after a crash inside a group. `p` is the engine before that group. Over any later
      groups the restarted engine, its count of decisions aside, does what `p` does if and only if
      nothing had filled before the crash and halts never matter. With the interrupted group
      delivered again as the first of them, `p` is the uninterrupted engine; without it, `p` is an
      engine that never saw the group. */
  lemma CrashedRunIff(
      p: Paper, cfg: PaperConfig, t: int, group: seq<Bar>, wall: int, at: CrashPoint, groups: seq<seq<Bar>>, later: int)
    requires ConfigOk(cfg) && Recoverable(p, cfg, t) && group != [] && Reached(p, cfg, group, wall, at)
    requires groups != [] && NonEmptyGroups(groups) && AllInOrder(groups, cfg, t)
    ensures var q := Recounted(AfterCrash(p, cfg, group, wall, at), p);
      SameAlong(p, q, cfg, groups, later)
      <==> NothingFilled(p, group, at) && HaltsNeverMatter(p, q, cfg, groups, later)
  {
    hide CrashedAt, AfterCrash, Reached, NothingFilled, Told, ConfigOk, Resumed, Unnumbered, CoreOf, ProcessGroup, HaltsNeverMatter, AllInOrder, Recoverable;
    ConfigBundles(cfg);
    var q := Recounted(AfterCrash(p, cfg, group, wall, at), p);
    CrashCounters(p, cfg, t, group, wall, at);
    if NothingFilled(p, group, at) {
      RunResumesIff(p, q, cfg, t, groups, later);
    } else {
      CountersStayApart(p, q, cfg, groups[0], later);
    }
  }

  /** Counted decisions included, it must also have told no decision before the crash. */
  lemma CrashedRunExactlyIff(
      p: Paper, cfg: PaperConfig, t: int, group: seq<Bar>, wall: int, at: CrashPoint, groups: seq<seq<Bar>>, later: int)
    requires ConfigOk(cfg) && Recoverable(p, cfg, t) && group != [] && Reached(p, cfg, group, wall, at)
    requires groups != [] && NonEmptyGroups(groups) && AllInOrder(groups, cfg, t)
    ensures var q := AfterCrash(p, cfg, group, wall, at);
      SameAlong(p, q, cfg, groups, later)
      <==> NothingFilled(p, group, at) && Told(cfg, group, at) == 0 && HaltsNeverMatter(p, q, cfg, groups, later)
  {
    hide CrashedAt, AfterCrash, Reached, NothingFilled, Told, ConfigOk, Resumed, Unnumbered, CoreOf, ProcessGroup, HaltsNeverMatter, AllInOrder, Recoverable;
    ConfigBundles(cfg);
    var q := AfterCrash(p, cfg, group, wall, at);
    CrashCounters(p, cfg, t, group, wall, at);
    if NothingFilled(p, group, at) && Told(cfg, group, at) == 0 {
      assert Recounted(q, p) == q;
      RunResumesIff(p, q, cfg, t, groups, later);
    } else {
      CountersStayApart(p, q, cfg, groups[0], later);
    }
  }

  /** The next group, be it the interrupted one again or a later one: the same if and only if nothing
      had filled, and `p` was not halted at its close or no armed decision of it wants a position. */
  lemma CrashedGroupIff(
      p: Paper, cfg: PaperConfig, t: int, group: seq<Bar>, wall: int, at: CrashPoint, next: seq<Bar>, later: int)
    requires ConfigOk(cfg) && Recoverable(p, cfg, t) && group != [] && Reached(p, cfg, group, wall, at)
    requires InOrder(next, cfg, t) && OpensPositive(next)
    ensures var q := Recounted(AfterCrash(p, cfg, group, wall, at), p);
      var m := MarkedPaper(p, cfg, next, later);
      var view := PaperView(m, cfg, next[0].time + StepOf(cfg.interval));
      CoreOf(ProcessGroup(p, cfg, next, later).0) == CoreOf(ProcessGroup(q, cfg, next, later).0)
      <==> NothingFilled(p, group, at)
           && (!EngineHalted(m) || forall b :: b in next ==> !WantsPosition(m, cfg, view, b))
  {
    hide CrashedAt, AfterCrash, Reached, NothingFilled, Told, ConfigOk, Resumed, Unnumbered, CoreOf, ProcessGroup, MarkedPaper, PaperView, EngineHalted, WantsPosition, OpensPositive, Recoverable, LimitsOk;
    ConfigBundles(cfg);
    ConfigLimits(cfg);
    var q := Recounted(AfterCrash(p, cfg, group, wall, at), p);
    CrashCounters(p, cfg, t, group, wall, at);
    if NothingFilled(p, group, at) {
      CrashForgetsHalts(p, cfg, group, wall, at);
      FirstGroupUnhalted(q, cfg, next, later);
      GroupResumesIff(p, q, cfg, t, next, later);
    } else {
      CountersStayApart(p, q, cfg, next, later);
    }
  }

  lemma ConfigLimits(cfg: PaperConfig)
    requires ConfigOk(cfg)
    ensures LimitsOk(cfg.rules.limits)
  {
  }

  lemma CrashForgetsHalts(p: Paper, cfg: PaperConfig, group: seq<Bar>, wall: int, at: CrashPoint)
    requires group != [] && BundlesOk(cfg.bundles) && Reached(p, cfg, group, wall, at)
    ensures var q := Recounted(AfterCrash(p, cfg, group, wall, at), p);
      FollowsCurve(q, cfg) && q.desk.account.curve == [] && q.kill == {}
  {
    hide CrashedAt, Reached, Restart, Halted;
    var c := CrashedAt(p, cfg, group, wall, at);
    RestartFollows(cfg, c.journal, c.saved);
  }

  /** Nothing filled, and the group not delivered again: every raw decision of the next group is that
      of an engine that never saw it. */
  lemma MissedGroupDecisions(
      p: Paper, cfg: PaperConfig, t: int, group: seq<Bar>, wall: int, at: CrashPoint, next: seq<Bar>, b: Bar, later: int)
    requires ConfigOk(cfg) && Recoverable(p, cfg, t) && group != [] && Reached(p, cfg, group, wall, at)
    requires NothingFilled(p, group, at) && InOrder(next, cfg, t) && b in next && b.symbol in cfg.bundles
    ensures var q := AfterCrash(p, cfg, group, wall, at);
      var m, n := MarkedPaper(p, cfg, next, later), MarkedPaper(q, cfg, next, later);
      var now := next[0].time + StepOf(cfg.interval);
      RawDecision(m, cfg, PaperView(m, cfg, now), b) == RawDecision(n, cfg, PaperView(n, cfg, now), b)
  {
    hide CrashedAt, AfterCrash, Reached, NothingFilled, Told, ConfigOk, Resumed, Unnumbered, CoreOf, MarkedPaper, PaperView, Strategies.Decide, Recoverable;
    ConfigBundles(cfg);
    var q := AfterCrash(p, cfg, group, wall, at);
    CrashCounters(p, cfg, t, group, wall, at);
    var k := Told(cfg, group, at);
    NextRawDecisions(p, Recounted(q, p), cfg, t, next, b, later);
    MarkedOlder(Recounted(q, p), k, cfg, next, later);
    ViewOlder(MarkedPaper(Recounted(q, p), cfg, next, later), k, cfg, next[0].time + StepOf(cfg.interval));
  }

  /** Nowhere inside a group does a restart come back to where the engine was: the group's bars and
      its time are gone. */
  lemma NeverWhereItLeftOff(p: Paper, cfg: PaperConfig, t: int, group: seq<Bar>, wall: int, at: CrashPoint)
    requires group != [] && BundlesOk(cfg.bundles) && Recoverable(p, cfg, t) && Reached(p, cfg, group, wall, at)
    requires p.lastBarTime != Some(group[0].time)
    ensures AfterCrash(p, cfg, group, wall, at).lastBarTime == p.lastBarTime
            != CrashedAt(p, cfg, group, wall, at).lastBarTime == Some(group[0].time)
  {
    hide CrashedAt, Reached, Restart, EssenceOf, Unnumbered, BuffersOk, SameTails, BundlesOk;
    CrashedBooks(p, cfg, group, wall, at);
    SameStateFile(cfg, CrashedAt(p, cfg, group, wall, at).journal, p.journal, p.saved);
  }

  // ------------------------------------------------------------- what seeding brings back

  lemma LookbackKept(buffer: seq<Bar>, tail: seq<Bar>, lookback: nat, t: int)
    requires tail == LastN(buffer, lookback + 5) && forall b :: b in buffer ==> b.time < t
    ensures |tail| >= lookback <==> |buffer| >= lookback
    ensures !HasTime(tail, t)
  {
  }

  /** The interrupted group's bar, fetched again at the start, is back in its buffer if and only if
      that buffer was shorter than the longest lookback: a warm engine is never given it again. */
  lemma SeedReturnsBarIff(
      p: Paper, cfg: PaperConfig, t: int, group: seq<Bar>, wall: int, at: CrashPoint, b: Bar, candles: seq<Bar>, start: int)
    requires ConfigOk(cfg) && AtBoundary(p, cfg, t) && group != [] && Reached(p, cfg, group, wall, at)
    requires b in candles && Relevant(cfg)(b) && t < b.time && b.time == group[0].time
    ensures var q := AfterCrash(p, cfg, group, wall, at);
      HasTime(BufferOf(Seed(q, cfg, candles, start).buffers, b.symbol), b.time)
      <==> |BufferOf(p.buffers, b.symbol)| < MaxLookback(cfg.bundles[b.symbol].features)
  {
    hide CrashedAt, AfterCrash, Reached, Journalled, FollowsCurve, StateFile, HasTime, Seed, MaxLookback, LastN;
    var q := AfterCrash(p, cfg, group, wall, at);
    var s := b.symbol;
    CrashBuffers(p, cfg, group, wall, at);
    LookbackKept(BufferOf(p.buffers, s), BufferOf(q.buffers, s), MaxLookback(cfg.bundles[s].features), b.time);
    SeedEntersIff(q, cfg, candles, start, s, b.time);
    FilterKeeps(candles, Relevant(cfg), b);
    FilterKeeps(Filter(candles, Relevant(cfg)), BySymbol(s), b);
    TimeOfMember(Fetched(cfg, s, candles), b);
  }

  lemma TimeOfMember(bars: seq<Bar>, b: Bar)
    requires b in bars
    ensures HasTime(bars, b.time)
  {
  }

  lemma CrashBuffers(p: Paper, cfg: PaperConfig, group: seq<Bar>, wall: int, at: CrashPoint)
    requires group != [] && BundlesOk(cfg.bundles) && Journalled(p, cfg) && Reached(p, cfg, group, wall, at)
    requires p.saved == Some(StateFile(p, cfg)) && p.lastBarTime.Some? && p.prevClose.Some?
    ensures TailsOf(AfterCrash(p, cfg, group, wall, at), p, cfg)
  {
    hide CrashedAt, Reached, StateFile, Restart, Journalled, TailsOf;
    CrashKeeps(p, cfg, group, wall, at);
    CrashedBooks(p, cfg, group, wall, at);
    BoundaryQueueSaved(p, cfg);
    RestartBringsBack(CrashedAt(p, cfg, group, wall, at), p, cfg);
  }
}
