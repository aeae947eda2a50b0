/** What stops the paper engine from trading: halts, the staleness latch and the master switch
    (paper/engine.py `_handle_decision`, `check_staleness`, runtime/kill_switch.py). */
module PaperHalts {
  import opened Collections
  import opened Market
  import opened Timeline
  import opened Source
  import opened Oms
  import opened Venue
  import opened Risk
  import opened Desk
  import opened Backtest
  import opened Commitment
  import opened Tracking
  import opened Strategies
  import opened PaperState
  import opened PaperRefinement
  import opened PaperRecovery

  // ------------------------------------------------------------- what a decision can change

  /** Everything but the queue and the order counter. */
  predicate SameStanding(d: Desk, e: Desk) {
    e == d.(pending := e.pending, account := d.account.(orderSeq := e.account.orderSeq))
  }

  /** A decision reaches the order queue and the journal; with the switch off, the journal only. */
  lemma DecisionReach(p: Paper, cfg: PaperConfig, view: View, b: Bar, wall: int)
    requires BundlesOk(cfg.bundles)
    ensures var q := DecidePaperBar(p, cfg, view, b, wall);
      && q.kill == p.kill && q.nFills == p.nFills && SameStanding(p.desk, q.desk) && q.saved == p.saved
      && (!cfg.armed ==> q.desk == p.desk)
  {
    hide Strategies.Decide, DeltaOrders, AllowedTargets;
  }

  lemma {:induction false} DecisionsReach(p: Paper, cfg: PaperConfig, view: View, group: seq<Bar>, wall: int)
    requires BundlesOk(cfg.bundles)
    ensures var q := DecidePaper(p, cfg, view, group, wall);
      && q.kill == p.kill && q.nFills == p.nFills && SameStanding(p.desk, q.desk) && q.saved == p.saved
      && (!cfg.armed ==> q.desk == p.desk)
    decreases |group|
  {
    if group != [] {
      hide DecidePaperBar;
      DecisionReach(p, cfg, view, group[0], wall);
      DecisionsReach(DecidePaperBar(p, cfg, view, group[0], wall), cfg, view, group[1..], wall);
    }
  }

  /** The desk before a group's decisions is the backtest's, and a staleness halt is untouched. */
  lemma MarkedDesk(p: Paper, cfg: PaperConfig, g: seq<Bar>, wall: int)
    requires g != []
    ensures var m := MarkedPaper(p, cfg, g, wall);
      && m.desk == CloseStep(WorldOf(cfg, []), p.desk, g)
      && (DataStaleness in m.kill <==> DataStaleness in p.kill)
  {
    hide SyncHalts, CloseGroup, OpenGroup, OpenPaper, EnterBars;
    OpenPaperDesk(Arrived(p, g), cfg, g, wall);
    var filled := OpenPaper(Arrived(p, g), cfg, g, wall);
    SyncMirrorsRisk(filled.(desk := CloseGroup(filled.desk, cfg.rules, g, g[0].time + StepOf(cfg.interval))), wall);
  }

  /** A staleness check halts exactly when a bar has been seen and its time lies more than the limit
      back; it tells the journal once and touches nothing else. */
  lemma StaleIff(p: Paper, cfg: PaperConfig, now: int)
    ensures var q := CheckStaleness(p, cfg, now);
      var stale := p.lastBarTime.Some? && now > p.lastBarTime.value + cfg.stalenessLimit;
      && (DataStaleness in q.kill <==> DataStaleness in p.kill || stale)
      && (forall r :: KillReason.Drawdown(r) in q.kill <==> KillReason.Drawdown(r) in p.kill)
      && q.journal == p.journal + (if stale && DataStaleness !in p.kill then [Entry(now, HaltEvent(DataStaleness))] else [])
      && q == p.(kill := q.kill, journal := q.journal)
  {
  }

  /** After a group, completed or not, the feed's age is counted from that group's time. */
  lemma StaleAfterGroup(p: Paper, cfg: PaperConfig, g: seq<Bar>, wall: int, now: int)
    requires g != [] && BundlesOk(cfg.bundles)
    ensures var q := CheckStaleness(ProcessGroup(p, cfg, g, wall).0, cfg, now);
      DataStaleness in q.kill <==> DataStaleness in p.kill || now - g[0].time > cfg.stalenessLimit
  {
    hide OpenPaper, SyncHalts, CloseGroup, DecidePaper, PaperView, Finish, CheckStaleness, EnterBars, StepOf;
    var close := g[0].time + StepOf(cfg.interval);
    OpenPaperDesk(Arrived(p, g), cfg, g, wall);
    if OpensPositive(g) {
      var filled := OpenPaper(Arrived(p, g), cfg, g, wall);
      var m := MarkedPaper(p, cfg, g, wall);
      SyncMirrorsRisk(filled.(desk := CloseGroup(filled.desk, cfg.rules, g, close)), wall);
      DecisionsKeepTime(m, cfg, PaperView(m, cfg, close), g, wall);
      FinishKeeps(DecidePaper(m, cfg, PaperView(m, cfg, close), g, wall), cfg, close, wall);
    }
    StaleIff(ProcessGroup(p, cfg, g, wall).0, cfg, now);
  }

  lemma {:induction false} DecisionsKeepTime(p: Paper, cfg: PaperConfig, view: View, group: seq<Bar>, wall: int)
    requires BundlesOk(cfg.bundles)
    ensures DecidePaper(p, cfg, view, group, wall).lastBarTime == p.lastBarTime
    ensures DecidePaper(p, cfg, view, group, wall).kill == p.kill
    decreases |group|
  {
    if group != [] {
      hide Strategies.Decide, DeltaOrders, AllowedTargets;
      DecisionsKeepTime(DecidePaperBar(p, cfg, view, group[0], wall), cfg, view, group[1..], wall);
    }
  }

  // ------------------------------------------------------------- halted groups

  lemma HaltedBar(p: Paper, cfg: PaperConfig, view: View, b: Bar, wall: int, s: string)
    requires BundlesOk(cfg.bundles) && EngineHalted(p)
    ensures var q := DecidePaperBar(p, cfg, view, b, wall);
      && Held(q.desk, s) == Held(p.desk, s)
      && (b.symbol != s ==> Mine(q.desk, s) == Mine(p.desk, s))
      && (Mine(p.desk, s) == [] ==> FlatQueue(q.desk, s))
  {
    hide EngineHalted, Mine, Held;
    if b.symbol in cfg.bundles {
      var d := Strategies.Decide(cfg.bundles[b.symbol], b, view, TakeSnapshot(p.desk.account, p.desk.marks));
      hide Strategies.Decide, DeltaOrders;
      match d
      case Warmup =>
        QueueKeepsFlat(p.desk, DecidePaperBar(p, cfg, view, b, wall).desk, s);
      case Decided(_, _, _, _, qty) =>
        var allowed := AllowedTargets(p, Target(b.symbol, qty));
        AllowedWhileHalted(p, Target(b.symbol, qty));
        QueueOne(p.desk, allowed, view.now, s);
        if Mine(p.desk, s) == [] {
          QueueFlat(p.desk, allowed, view.now, s);
        }
    }
  }

  lemma AllowedWhileHalted(p: Paper, t: Target)
    requires EngineHalted(p)
    ensures var allowed := AllowedTargets(p, t);
      |allowed| <= 1 && (allowed != [] ==> allowed[0].symbol == t.symbol && allowed[0].qty == 0.0)
  {
    hide IsHalted;
    var gated := GateTargets(p.desk.risk, [t]);
    assert |gated| <= 1 && forall x :: x in gated ==> x == t;
    var allowed := AllowedTargets(p, t);
    assert allowed != [] ==> allowed[0] in allowed && IsFlat()(allowed[0]);
  }

  lemma {:induction false} HaltedBars(p: Paper, cfg: PaperConfig, view: View, group: seq<Bar>, wall: int, s: string)
    requires BundlesOk(cfg.bundles) && EngineHalted(p) && OneBarPerSymbol(group)
    requires HasSymbol(group, s) ==> Mine(p.desk, s) == []
    ensures var d := DecidePaper(p, cfg, view, group, wall).desk;
      && Held(d, s) == Held(p.desk, s)
      && (HasSymbol(group, s) || FlatQueue(p.desk, s) ==> FlatQueue(d, s))
      && (!HasSymbol(group, s) ==> Mine(d, s) == Mine(p.desk, s))
    decreases |group|
  {
    if group != [] {
      hide FlatQueue, DecidePaperBar, Mine, Held;
      var b := group[0];
      var q := DecidePaperBar(p, cfg, view, b, wall);
      HasSymbolStep(group, s);
      HaltedBar(p, cfg, view, b, wall, s);
      DecisionReach(p, cfg, view, b, wall);
      if b.symbol == s {
        OwnBarIsOnly(group);
      } else {
        QueueKeepsFlat(p.desk, q.desk, s);
      }
      HaltedBars(q, cfg, view, group[1..], wall, s);
    }
  }

  /** One group decided under a halt of any kind: a bar of the symbol fills whatever was queued for
      it, flattening or not, and leaves nothing but flattening behind; without one the symbol is
      left alone. */
  lemma HaltedGroup(p: Paper, cfg: PaperConfig, g: seq<Bar>, wall: int, s: string)
    requires BundlesOk(cfg.bundles) && g != [] && OpensPositive(g) && OneBarPerSymbol(g)
    requires EngineHalted(MarkedPaper(p, cfg, g, wall))
    ensures var d := ProcessGroup(p, cfg, g, wall).0.desk;
      if HasSymbol(g, s) then Held(d, s) == Committed(p.desk, s) && FlatQueue(d, s)
      else Held(d, s) == Held(p.desk, s) && Mine(d, s) == Mine(p.desk, s)
  {
    hide MarkedPaper, CloseStep, OpenGroup, DecidePaper, Mine, Held, Committed, EngineHalted, PaperView, StateFile, Reports;
    var w := WorldOf(cfg, []);
    var m := MarkedPaper(p, cfg, g, wall);
    MarkedDesk(p, cfg, g, wall);
    OpenSettles(p.desk, w.rules.costs, g, s);
    CloseKeepsQueue(w, p.desk, g, s);
    var close := g[0].time + StepOf(cfg.interval);
    HaltedBars(m, cfg, PaperView(m, cfg, close), g, wall, s);
    FinishKeeps(DecidePaper(m, cfg, PaperView(m, cfg, close), g, wall), cfg, close, wall);
  }

  /** Every group of the stretch is decided under some halt: drawdown, staleness or both. */
  predicate HaltedAlong(p: Paper, cfg: PaperConfig, groups: seq<seq<Bar>>, wall: int)
    requires NonEmptyGroups(groups) && BundlesOk(cfg.bundles)
    decreases |groups|
  {
    groups == [] ||
    (EngineHalted(MarkedPaper(p, cfg, groups[0], wall))
     && HaltedAlong(ProcessGroup(p, cfg, groups[0], wall).0, cfg, groups[1..], wall))
  }

  /** After every group the position is `was` or zero. */
  predicate OnlyFlattens(p: Paper, cfg: PaperConfig, groups: seq<seq<Bar>>, wall: int, s: string, was: real)
    requires NonEmptyGroups(groups) && BundlesOk(cfg.bundles)
    decreases |groups|
  {
    groups == [] ||
    (var q := ProcessGroup(p, cfg, groups[0], wall).0;
     Held(q.desk, s) in {was, 0.0} && OnlyFlattens(q, cfg, groups[1..], wall, s, was))
  }

  /** With nothing but flattening queued, a halted engine only flattens: after every group of the
      stretch a position is what it was or zero, whatever the models say. */
  lemma {:induction false} HaltedEngineOnlyFlattens(
      p: Paper, cfg: PaperConfig, groups: seq<seq<Bar>>, wall: int, s: string, was: real)
    requires BundlesOk(cfg.bundles) && NonEmptyGroups(groups) && SingleBars(groups)
    requires HaltedAlong(p, cfg, groups, wall) && FlatQueue(p.desk, s) && Held(p.desk, s) in {was, 0.0}
    requires ProcessGroups(p, cfg, groups, wall).1
    ensures OnlyFlattens(p, cfg, groups, wall, s, was)
    ensures FlatQueue(ProcessGroups(p, cfg, groups, wall).0.desk, s)
    decreases |groups|
  {
    if groups != [] {
      CompletedOpens(p, cfg, groups[0], wall);
      hide ProcessGroup, MarkedPaper, EngineHalted, Mine, Held, FlatQueue;
      HaltedGroup(p, cfg, groups[0], wall, s);
      var q := ProcessGroup(p, cfg, groups[0], wall).0;
      if HasSymbol(groups[0], s) {
        FlatMeansStay(p.desk, s);
      } else {
        QueueKeepsFlat(p.desk, q.desk, s);
      }
      HaltedEngineOnlyFlattens(q, cfg, groups[1..], wall, s, was);
    }
  }

  /** The exact law, whatever is queued when the halt starts: the position only stays or goes flat
      if and only if no group carries the symbol, or the queue left the position alone or closed
      it. An order queued before the halt fills under it. */
  lemma {:induction false} HaltedEngineIff(p: Paper, cfg: PaperConfig, groups: seq<seq<Bar>>, wall: int, s: string)
    requires BundlesOk(cfg.bundles) && NonEmptyGroups(groups) && SingleBars(groups)
    requires HaltedAlong(p, cfg, groups, wall) && ProcessGroups(p, cfg, groups, wall).1
    ensures OnlyFlattens(p, cfg, groups, wall, s, Held(p.desk, s))
      <==> !Carried(groups, s) || Committed(p.desk, s) in {Held(p.desk, s), 0.0}
    decreases |groups|
  {
    if groups != [] {
      CompletedOpens(p, cfg, groups[0], wall);
      hide ProcessGroup, MarkedPaper, EngineHalted, Mine, Held, FlatQueue;
      HaltedGroup(p, cfg, groups[0], wall, s);
      var q := ProcessGroup(p, cfg, groups[0], wall).0;
      if !HasSymbol(groups[0], s) {
        QueueKeepsFlat(p.desk, q.desk, s);
        HaltedEngineIff(q, cfg, groups[1..], wall, s);
      } else if Committed(p.desk, s) in {Held(p.desk, s), 0.0} {
        HaltedEngineOnlyFlattens(q, cfg, groups[1..], wall, s, Held(p.desk, s));
      }
    }
  }

  /** From the first halted group that carries the symbol on, the position is what that group's
      open made it, or flat. */
  lemma HaltedEngineStretch(p: Paper, cfg: PaperConfig, groups: seq<seq<Bar>>, wall: int, s: string)
    requires BundlesOk(cfg.bundles) && groups != [] && NonEmptyGroups(groups) && SingleBars(groups)
    requires HaltedAlong(p, cfg, groups, wall) && ProcessGroups(p, cfg, groups, wall).1 && HasSymbol(groups[0], s)
    ensures var first := ProcessGroup(p, cfg, groups[0], wall).0;
      Held(first.desk, s) == Committed(p.desk, s)
      && OnlyFlattens(first, cfg, groups[1..], wall, s, Committed(p.desk, s))
  {
    CompletedOpens(p, cfg, groups[0], wall);
    hide ProcessGroup, MarkedPaper, EngineHalted, Mine, Held, FlatQueue;
    HaltedGroup(p, cfg, groups[0], wall, s);
    HaltedEngineOnlyFlattens(ProcessGroup(p, cfg, groups[0], wall).0, cfg, groups[1..], wall, s, Committed(p.desk, s));
  }

  lemma CompletedOpens(p: Paper, cfg: PaperConfig, g: seq<Bar>, wall: int)
    requires BundlesOk(cfg.bundles) && g != []
    ensures ProcessGroup(p, cfg, g, wall).1 <==> OpensPositive(g)
  {
    hide MarkedPaper, DecidePaper, Finish, OpenPaper, PaperView;
  }

  // ------------------------------------------------------------- the staleness latch

  lemma GroupKeepsStaleness(p: Paper, cfg: PaperConfig, g: seq<Bar>, wall: int)
    requires BundlesOk(cfg.bundles) && g != []
    ensures DataStaleness in ProcessGroup(p, cfg, g, wall).0.kill <==> DataStaleness in p.kill
  {
    hide MarkedPaper, DecidePaper, OpenPaper, PaperView, Finish;
    if !OpensPositive(g) {
      OpenPaperDesk(Arrived(p, g), cfg, g, wall);
    } else {
      var close := g[0].time + StepOf(cfg.interval);
      var m := MarkedPaper(p, cfg, g, wall);
      MarkedDesk(p, cfg, g, wall);
      DecisionsReach(m, cfg, PaperView(m, cfg, close), g, wall);
      FinishKeeps(DecidePaper(m, cfg, PaperView(m, cfg, close), g, wall), cfg, close, wall);
    }
  }

  lemma {:induction false} GroupsKeepStaleness(p: Paper, cfg: PaperConfig, groups: seq<seq<Bar>>, wall: int)
    requires BundlesOk(cfg.bundles) && NonEmptyGroups(groups)
    ensures DataStaleness in ProcessGroups(p, cfg, groups, wall).0.kill <==> DataStaleness in p.kill
    decreases |groups|
  {
    if groups != [] {
      hide ProcessGroup;
      GroupKeepsStaleness(p, cfg, groups[0], wall);
      var (q, ok) := ProcessGroup(p, cfg, groups[0], wall);
      if ok {
        GroupsKeepStaleness(q, cfg, groups[1..], wall);
      }
    }
  }

  predicate Restarts(p: Paper, cfg: PaperConfig, x: Stimulus) {
    x.Restarted? || (x.Crashed? && x.group != [] && Reached(p, cfg, x.group, x.wall, x.at))
  }

  lemma RestartUnkilled(cfg: PaperConfig, journal: seq<Entry>, saved: Option<Saved>)
    ensures Restart(cfg, journal, saved).kill == {}
  {
    RecallIsRemember(NewPaper(cfg), journal);
  }

  /** No fresh bar releases a staleness halt: of everything that can happen to an engine, only a
      restart does. */
  lemma OnlyRestartClearsStaleness(p: Paper, cfg: PaperConfig, x: Stimulus)
    requires KnownBundles(cfg) && DataStaleness in p.kill
    ensures DataStaleness in React(p, cfg, x).kill <==> !Restarts(p, cfg, x)
  {
    hide ProcessGroups, SeedSymbols, Restart, ReplaySort, Groups, Reached, CrashedAt;
    match x
    case Fetch(candles, wall) =>
      SeedSymbolsKeep(p, cfg, cfg.symbols, candles);
    case Batch(bars, wall) =>
      GroupsKeepStaleness(p, cfg, Groups(ReplaySort(Filter(bars, Relevant(cfg)))), wall);
    case StalenessCheck(now) =>
    case Restarted =>
      RestartUnkilled(cfg, p.journal, p.saved);
    case Crashed(group, wall, at) =>
      if group != [] && Reached(p, cfg, group, wall, at) {
        var crashed := CrashedAt(p, cfg, group, wall, at);
        RestartUnkilled(cfg, crashed.journal, crashed.saved);
      }
  }

  /** Hence after a staleness trip every later group, of any number of batches, is a halted one. */
  lemma {:induction false} StaleMeansHalted(p: Paper, cfg: PaperConfig, groups: seq<seq<Bar>>, wall: int)
    requires BundlesOk(cfg.bundles) && NonEmptyGroups(groups) && DataStaleness in p.kill
    ensures HaltedAlong(p, cfg, groups, wall)
    decreases |groups|
  {
    if groups != [] {
      hide ProcessGroup, MarkedPaper;
      MarkedDesk(p, cfg, groups[0], wall);
      GroupKeepsStaleness(p, cfg, groups[0], wall);
      StaleMeansHalted(ProcessGroup(p, cfg, groups[0], wall).0, cfg, groups[1..], wall);
    }
  }

  // ------------------------------------------------------------- the master switch

  function NotIn(group: seq<Bar>): Order -> bool {
    (o: Order) => !HasSymbol(group, o.symbol)
  }

  lemma {:induction false} OpenDrains(d: Desk, costs: Costs, group: seq<Bar>)
    requires OpensPositive(group)
    ensures OpenGroup(d, costs, group).pending == Filter(d.pending, NotIn(group))
    decreases |group|
  {
    if group == [] {
      FilterAll(d.pending, NotIn(group));
    } else {
      assert group[0].open > 0.0 && OpensPositive(group[1..]);
      OpenDrains(OpenBar(d, costs, group[0]), costs, group[1..]);
      forall o: Order ensures NotIn(group)(o) == (OrderNotFor(group[0].symbol)(o) && NotIn(group[1..])(o)) {
        HasSymbolStep(group, o.symbol);
      }
      FilterFilter(d.pending, OrderNotFor(group[0].symbol), NotIn(group[1..]), NotIn(group));
    }
  }

  /** Nothing traded and nothing queued, here or in the state file. */
  ghost predicate Idle(p: Paper, cfg: PaperConfig) {
    && p.desk.pending == [] && p.nFills == 0
    && p.desk.account.cash == cfg.initialEquity && p.desk.account.book == Book([], map[])
    && (p.saved.Some? ==> p.saved.value.pending == [])
  }

  lemma {:induction false} NothingToOpen(p: Paper, cfg: PaperConfig, group: seq<Bar>, wall: int)
    requires p.desk.pending == []
    ensures OpenPaper(p, cfg, group, wall) == p
    decreases |group|
  {
    if group != [] && group[0].open > 0.0 {
      hide FillOf;
      assert SettleFills(p, [], wall) == p;
      NothingToOpen(p, cfg, group[1..], wall);
    }
  }

  lemma IdleGroup(p: Paper, cfg: PaperConfig, g: seq<Bar>, wall: int)
    requires BundlesOk(cfg.bundles) && !cfg.armed && g != [] && Idle(p, cfg)
    ensures Idle(ProcessGroup(p, cfg, g, wall).0, cfg)
  {
    hide DecidePaper, OpenPaper, PaperView, EnterBars, SyncHalts, RiskUpdate, Trimmed, Reports, MarkGroup;
    NothingToOpen(Arrived(p, g), cfg, g, wall);
    if OpensPositive(g) {
      var close := g[0].time + StepOf(cfg.interval);
      var closed := Arrived(p, g).(desk := CloseGroup(p.desk, cfg.rules, g, close));
      SyncMirrorsRisk(closed, wall);
      var m := MarkedPaper(p, cfg, g, wall);
      assert m == SyncHalts(closed, wall);
      DecisionsReach(m, cfg, PaperView(m, cfg, close), g, wall);
      FinishKeeps(DecidePaper(m, cfg, PaperView(m, cfg, close), g, wall), cfg, close, wall);
    }
  }

  lemma {:induction false} IdleGroups(p: Paper, cfg: PaperConfig, groups: seq<seq<Bar>>, wall: int)
    requires BundlesOk(cfg.bundles) && !cfg.armed && NonEmptyGroups(groups) && Idle(p, cfg)
    ensures Idle(ProcessGroups(p, cfg, groups, wall).0, cfg)
    decreases |groups|
  {
    if groups != [] {
      hide ProcessGroup, Idle;
      IdleGroup(p, cfg, groups[0], wall);
      var (q, ok) := ProcessGroup(p, cfg, groups[0], wall);
      if ok {
        IdleGroups(q, cfg, groups[1..], wall);
      }
    }
  }

  lemma IdleCrash(p: Paper, cfg: PaperConfig, g: seq<Bar>, wall: int, at: CrashPoint)
    requires BundlesOk(cfg.bundles) && !cfg.armed && g != [] && Idle(p, cfg) && Reached(p, cfg, g, wall, at)
    ensures Idle(CrashedAt(p, cfg, g, wall, at), cfg)
  {
    hide DecidePaper, OpenPaper, PaperView, EnterBars, SyncHalts, RiskUpdate, MarkGroup;
    var arrived := Arrived(p, g);
    match at
    case Opening(n) =>
      NothingToOpen(arrived, cfg, g[..n], wall);
    case Filling(n, k) =>
      NothingToOpen(arrived, cfg, g[..n], wall);
      assert false;
    case Deciding(n) =>
      NothingToOpen(arrived, cfg, g, wall);
      var close := g[0].time + StepOf(cfg.interval);
      var closed := arrived.(desk := CloseGroup(p.desk, cfg.rules, g, close));
      SyncMirrorsRisk(closed, wall);
      var m := MarkedPaper(p, cfg, g, wall);
      assert m == SyncHalts(closed, wall);
      DecisionsReach(m, cfg, PaperView(m, cfg, close), g[..n], wall);
  }

  lemma IdleRestart(p: Paper, cfg: PaperConfig)
    requires Idle(p, cfg) && Journalled(p, cfg)
    ensures Idle(Restart(cfg, p.journal, p.saved), cfg)
  {
    hide RememberAll, RecallAll;
    RecallIsRemember(NewPaper(cfg), p.journal);
  }

  /** The master switch, over every life of an engine that was never armed: no order is ever
      queued, nothing ever fills, and equity is the initial stake at any marks. */
  lemma {:induction false} DisabledNeverTrades(cfg: PaperConfig, stimuli: seq<Stimulus>)
    requires KnownBundles(cfg) && !cfg.armed
    ensures Idle(Life(cfg, stimuli), cfg)
    ensures forall marks :: Equity(Life(cfg, stimuli).desk.account, marks) == cfg.initialEquity
  {
    if stimuli != [] {
      var n := |stimuli| - 1;
      var p := Life(cfg, stimuli[..n]);
      DisabledNeverTrades(cfg, stimuli[..n]);
      JournalTellsAll(cfg, stimuli[..n]);
      IdleReacts(p, cfg, stimuli[n]);
    }
  }

  lemma IdleReacts(p: Paper, cfg: PaperConfig, x: Stimulus)
    requires KnownBundles(cfg) && !cfg.armed && Idle(p, cfg) && Journalled(p, cfg)
    ensures Idle(React(p, cfg, x), cfg)
  {
    hide ProcessGroups, SeedSymbols, RecallAll, ReplaySort, Groups, RememberAll, Reached, CrashedAt, Journalled, Restart;
    match x
    case Fetch(candles, wall) =>
      SeedSymbolsKeep(p, cfg, cfg.symbols, candles);
    case Batch(bars, wall) =>
      IdleGroups(p, cfg, Groups(ReplaySort(Filter(bars, Relevant(cfg)))), wall);
    case StalenessCheck(now) =>
    case Restarted =>
      IdleRestart(p, cfg);
    case Crashed(group, wall, at) =>
      if group != [] && Reached(p, cfg, group, wall, at) {
        IdleCrash(p, cfg, group, wall, at);
        CrashKeeps(p, cfg, group, wall, at);
        IdleRestart(CrashedAt(p, cfg, group, wall, at), cfg);
      }
  }

  /** A disabled engine that came back with a saved queue does trade: a group fills nothing if and
      only if no restored order is for one of its symbols. */
  lemma DisabledStillFills(p: Paper, cfg: PaperConfig, g: seq<Bar>, wall: int)
    requires BundlesOk(cfg.bundles) && !cfg.armed && g != [] && OpensPositive(g)
    ensures ProcessGroup(p, cfg, g, wall).0.nFills == p.nFills
      <==> forall o :: o in p.desk.pending ==> !HasSymbol(g, o.symbol)
  {
    hide DecidePaper, MarkedPaper, OpenPaper, PaperView, EnterBars, OpenGroup, HasSymbol, Journalled, Filter, NotIn, BundlesOk, OpensPositive;
    var arrived := Arrived(p, g);
    OpenCounts(arrived, cfg, g, wall);
    OpenPaperDesk(arrived, cfg, g, wall);
    OpenDrains(p.desk, cfg.rules.costs, g);
    MarkCounts(p, cfg, g, wall);
    var close := g[0].time + StepOf(cfg.interval);
    var m := MarkedPaper(p, cfg, g, wall);
    DecisionsReach(m, cfg, PaperView(m, cfg, close), g, wall);
    FinishKeeps(DecidePaper(m, cfg, PaperView(m, cfg, close), g, wall), cfg, close, wall);
    DrainsNothing(p.desk.pending, g);
  }

  lemma MarkCounts(p: Paper, cfg: PaperConfig, g: seq<Bar>, wall: int)
    requires g != []
    ensures MarkedPaper(p, cfg, g, wall).nFills == OpenPaper(Arrived(p, g), cfg, g, wall).nFills
  {
    hide OpenPaper, SyncHalts, CloseGroup, EnterBars;
    var filled := OpenPaper(Arrived(p, g), cfg, g, wall);
    SyncMirrorsRisk(filled.(desk := CloseGroup(filled.desk, cfg.rules, g, g[0].time + StepOf(cfg.interval))), wall);
  }

  lemma DisabledQueue(p: Paper, cfg: PaperConfig, g: seq<Bar>, wall: int)
    requires BundlesOk(cfg.bundles) && !cfg.armed && g != [] && OpensPositive(g)
    ensures var q := ProcessGroup(p, cfg, g, wall).0;
      q.desk.pending == Filter(p.desk.pending, NotIn(g)) && q.nFills == p.nFills + |p.desk.pending| - |q.desk.pending|
  {
    hide DecidePaper, MarkedPaper, OpenPaper, PaperView, EnterBars, OpenGroup, CloseStep, Filter, NotIn, BundlesOk, OpensPositive;
    var close := g[0].time + StepOf(cfg.interval);
    var m := MarkedPaper(p, cfg, g, wall);
    OpenCounts(Arrived(p, g), cfg, g, wall);
    OpenPaperDesk(Arrived(p, g), cfg, g, wall);
    OpenDrains(p.desk, cfg.rules.costs, g);
    MarkCounts(p, cfg, g, wall);
    MarkedDesk(p, cfg, g, wall);
    CloseKeepsPending(WorldOf(cfg, []), p.desk, g);
    DecisionsReach(m, cfg, PaperView(m, cfg, close), g, wall);
    FinishKeeps(DecidePaper(m, cfg, PaperView(m, cfg, close), g, wall), cfg, close, wall);
  }

  lemma CloseKeepsPending(w: World, d: Desk, g: seq<Bar>)
    requires g != []
    ensures CloseStep(w, d, g).pending == OpenGroup(d, w.rules.costs, g).pending
  {
  }

  lemma {:induction false} DisabledFillsGrow(p: Paper, cfg: PaperConfig, groups: seq<seq<Bar>>, wall: int)
    requires BundlesOk(cfg.bundles) && !cfg.armed && NonEmptyGroups(groups) && ProcessGroups(p, cfg, groups, wall).1
    ensures ProcessGroups(p, cfg, groups, wall).0.nFills >= p.nFills
    decreases |groups|
  {
    hide ProcessGroup, Filter, NotIn, OpensPositive;
    if groups != [] {
      CompletedOpens(p, cfg, groups[0], wall);
      DisabledQueue(p, cfg, groups[0], wall);
      DisabledFillsGrow(ProcessGroup(p, cfg, groups[0], wall).0, cfg, groups[1..], wall);
    }
  }

  /** Over any later groups a disabled engine fills nothing if and only if none of them carries the
      symbol of an order it came back with. */
  lemma {:induction false} DisabledNeverFillsIff(p: Paper, cfg: PaperConfig, groups: seq<seq<Bar>>, wall: int)
    requires BundlesOk(cfg.bundles) && !cfg.armed && NonEmptyGroups(groups) && ProcessGroups(p, cfg, groups, wall).1
    ensures ProcessGroups(p, cfg, groups, wall).0.nFills == p.nFills
      <==> forall o :: o in p.desk.pending ==> !Carried(groups, o.symbol)
    decreases |groups|
  {
    hide ProcessGroup, Filter, NotIn, OpensPositive, HasSymbol;
    if groups != [] {
      var q := ProcessGroup(p, cfg, groups[0], wall).0;
      CompletedOpens(p, cfg, groups[0], wall);
      DisabledQueue(p, cfg, groups[0], wall);
      DrainsNothing(p.desk.pending, groups[0]);
      DisabledFillsGrow(q, cfg, groups[1..], wall);
      DisabledNeverFillsIff(q, cfg, groups[1..], wall);
      if |q.desk.pending| == |p.desk.pending| {
        FilterSameLength(p.desk.pending, NotIn(groups[0]));
      }
    }
  }

  lemma DrainsNothing(pending: seq<Order>, g: seq<Bar>)
    ensures |Filter(pending, NotIn(g))| == |pending| <==> forall o :: o in pending ==> !HasSymbol(g, o.symbol)
  {
    if |Filter(pending, NotIn(g))| == |pending| {
      FilterSameLength(pending, NotIn(g));
    } else if forall o :: o in pending ==> !HasSymbol(g, o.symbol) {
      FilterAll(pending, NotIn(g));
    }
  }
}
