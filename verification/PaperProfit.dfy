/** Profit decomposition in every state an engine can reach, across restarts and crashes: every
    order is worth placing, every fill moves something at a price that is not negative, and the
    journal's fills are the ones the books were built from. */
module PaperProfit {
  import opened Collections
  import opened Market
  import opened Timeline
  import opened Source
  import opened Oms
  import opened Venue
  import opened Risk
  import opened Desk
  import opened CostBasis
  import opened Accounting
  import opened Strategies
  import opened PaperState
  import opened PaperRefinement
  import opened PaperRecovery

  // ------------------------------------------------------------- real orders, real fills

  predicate RealOrder(o: Order) {
    o.quantity >= MIN_DELTA_QTY
  }

  predicate RealOrders(orders: seq<Order>) {
    forall o :: o in orders ==> RealOrder(o)
  }

  predicate RealEntry(e: Entry) {
    e.event.FillEvent? ==> e.event.quantity > 0.0 && e.event.price >= 0.0
  }

  predicate RealJournal(journal: seq<Entry>) {
    forall e :: e in journal ==> RealEntry(e)
  }

  /** Queue, saved queue and journal hold nothing that is dust or below price zero. */
  predicate Real(p: Paper) {
    RealOrders(p.desk.pending) && RealJournal(p.journal) && (p.saved.Some? ==> RealOrders(p.saved.value.pending))
  }

  predicate MildSlippage(costs: Costs) {
    0.0 <= costs.slippageBps <= BPS
  }

  lemma FillPriceNotNegative(costs: Costs, side: Side, open: real)
    requires MildSlippage(costs) && open > 0.0
    ensures FillPrice(costs, side, open) >= 0.0
  {
    var factor := 1.0 + (if side.Buy? then 1.0 else -1.0) * costs.slippageBps / BPS;
    assert factor >= 0.0;
    assert open * factor >= 0.0;
  }

  lemma {:induction false} DeltaOrdersReal(book: Book, targets: seq<Target>, submitTime: int, orderSeq: nat)
    ensures RealOrders(DeltaOrders(book, targets, submitTime, orderSeq))
    decreases |targets|
  {
    if targets != [] {
      DeltaOrdersReal(book, targets[1..], submitTime, orderSeq);
      DeltaOrdersReal(book, targets[1..], submitTime, orderSeq + 1);
      DeltaOrderReachesTarget(book, targets[0], submitTime, orderSeq);
    }
  }

  // ------------------------------------------------------------- every step keeps it

  lemma LogReal(p: Paper, q: Paper, e: Entry)
    requires Real(p) && q.journal == p.journal + [e] && RealEntry(e)
    requires q.desk.pending == p.desk.pending && q.saved == p.saved
    ensures Real(q)
  {
  }

  predicate RealFill(f: Fill) {
    f.quantity > 0.0 && f.price >= 0.0
  }

  lemma {:induction false} SettleFillsReal(p: Paper, fills: seq<Fill>, wall: int)
    requires Real(p) && forall f :: f in fills ==> RealFill(f)
    ensures Real(SettleFills(p, fills, wall))
    decreases |fills|
  {
    if fills != [] {
      hide Real, BasisStep, Notional, Adjust, KindOf, Equity;
      var q := SettleFill(p, fills[0], wall);
      assert fills[0] in fills;
      LogReal(p, q, q.journal[|p.journal|]);
      SettleFillsReal(q, fills[1..], wall);
    }
  }

  lemma FillsAreReal(costs: Costs, orders: seq<Order>, open: real, time: int)
    requires MildSlippage(costs) && open > 0.0 && RealOrders(orders)
    ensures forall f :: f in FillsOf(costs, orders, open, time) ==> RealFill(f)
  {
    hide FillPrice, MildSlippage;
    var fills := FillsOf(costs, orders, open, time);
    forall f | f in fills ensures RealFill(f) {
      var i :| 0 <= i < |fills| && fills[i] == f;
      assert RealOrder(orders[i]);
      FillPriceNotNegative(costs, orders[i].side, open);
    }
  }

  /** A bar's orders leave the queue together and settle one by one, all of them or the first few. */
  lemma BarReal(p: Paper, cfg: PaperConfig, b: Bar, k: nat, wall: int)
    requires Real(p) && MildSlippage(cfg.rules.costs) && b.open > 0.0
    requires k <= |Filter(p.desk.pending, OrderFor(b.symbol))|
    ensures var fills := FillsOf(cfg.rules.costs, Filter(p.desk.pending, OrderFor(b.symbol)), b.open, b.time);
      Real(SettleFills(p.(desk := p.desk.(pending := Filter(p.desk.pending, OrderNotFor(b.symbol)))), fills[..k], wall))
  {
    hide FillOf, FillsOf, MildSlippage, SettleFills;
    var fills := FillsOf(cfg.rules.costs, Filter(p.desk.pending, OrderFor(b.symbol)), b.open, b.time);
    FillsAreReal(cfg.rules.costs, Filter(p.desk.pending, OrderFor(b.symbol)), b.open, b.time);
    assert forall f :: f in fills[..k] ==> f in fills;
    SettleFillsReal(p.(desk := p.desk.(pending := Filter(p.desk.pending, OrderNotFor(b.symbol)))), fills[..k], wall);
  }

  lemma {:induction false} OpenReal(p: Paper, cfg: PaperConfig, group: seq<Bar>, wall: int)
    requires Real(p) && MildSlippage(cfg.rules.costs)
    ensures Real(OpenPaper(p, cfg, group, wall))
    decreases |group|
  {
    if group != [] && group[0].open > 0.0 {
      var b := group[0];
      var hits := Filter(p.desk.pending, OrderFor(b.symbol));
      var fills := FillsOf(cfg.rules.costs, hits, b.open, b.time);
      BarReal(p, cfg, b, |hits|, wall);
      assert fills[..|hits|] == fills;
      hide Real, SettleFills, FillsOf;
      OpenReal(OpenPaperBar(p, cfg, b, wall), cfg, group[1..], wall);
    }
  }

  lemma TripReal(p: Paper, h: set<Reason>, r: Reason, wall: int)
    requires Real(p)
    ensures Real(TripReason(p, h, r, wall)) && Real(ClearReason(p, h, r, wall))
  {
  }

  lemma CloseReal(p: Paper, cfg: PaperConfig, group: seq<Bar>, close: int, wall: int)
    requires Real(p)
    ensures Real(ClosePaper(p, cfg, group, close, wall))
  {
    var closed := p.(desk := CloseGroup(p.desk, cfg.rules, group, close));
    assert Real(closed);
    hide Real, TripReason, ClearReason, Halted, CloseGroup;
    var h := Halted(closed.desk.risk);
    TripReal(closed, h, DailyDd, wall);
    var p1 := TripReason(closed, h, DailyDd, wall);
    TripReal(p1, h, MonthlyDd, wall);
    var p2 := TripReason(p1, h, MonthlyDd, wall);
    TripReal(p2, h, WeeklyDd, wall);
    var p3 := TripReason(p2, h, WeeklyDd, wall);
    TripReal(p3, h, DailyDd, wall);
    var p4 := ClearReason(p3, h, DailyDd, wall);
    TripReal(p4, h, WeeklyDd, wall);
    TripReal(ClearReason(p4, h, WeeklyDd, wall), h, MonthlyDd, wall);
  }

  lemma MarkedReal(p: Paper, cfg: PaperConfig, group: seq<Bar>, wall: int)
    requires Real(p) && MildSlippage(cfg.rules.costs) && group != []
    ensures Real(MarkedPaper(p, cfg, group, wall))
  {
    hide OpenPaper, ClosePaper, EnterBars, MildSlippage;
    assert Real(Arrived(p, group));
    hide Real;
    OpenReal(Arrived(p, group), cfg, group, wall);
    CloseReal(OpenPaper(Arrived(p, group), cfg, group, wall), cfg, group, group[0].time + StepOf(cfg.interval), wall);
  }

  lemma DecisionReal(p: Paper, cfg: PaperConfig, view: View, b: Bar, wall: int)
    requires Real(p) && BundlesOk(cfg.bundles)
    ensures Real(DecidePaperBar(p, cfg, view, b, wall))
  {
    hide Strategies.Decide, DeltaOrders, AllowedTargets, EngineHalted;
    if b.symbol in cfg.bundles {
      var d := Strategies.Decide(cfg.bundles[b.symbol], b, view, TakeSnapshot(p.desk.account, p.desk.marks));
      if d.Decided? && cfg.armed {
        DeltaOrdersReal(p.desk.account.book, AllowedTargets(p, Target(b.symbol, d.targetQty)), view.now, p.desk.account.orderSeq);
      }
    }
  }

  lemma {:induction false} DecideReal(p: Paper, cfg: PaperConfig, view: View, group: seq<Bar>, wall: int)
    requires Real(p) && BundlesOk(cfg.bundles)
    ensures Real(DecidePaper(p, cfg, view, group, wall))
    decreases |group|
  {
    if group != [] {
      hide Real, DecidePaperBar;
      DecisionReal(p, cfg, view, group[0], wall);
      DecideReal(DecidePaperBar(p, cfg, view, group[0], wall), cfg, view, group[1..], wall);
    }
  }

  lemma FinishReal(p: Paper, cfg: PaperConfig, close: int, wall: int)
    requires Real(p)
    ensures Real(Finish(p, cfg, close, wall))
  {
    hide Trimmed;
    FinishKeeps(p, cfg, close, wall);
    assert Real(Log(p, wall, ReportEvent(Daily)));
  }

  lemma GroupReal(p: Paper, cfg: PaperConfig, group: seq<Bar>, wall: int)
    requires Real(p) && MildSlippage(cfg.rules.costs) && group != [] && BundlesOk(cfg.bundles)
    ensures Real(ProcessGroup(p, cfg, group, wall).0)
  {
    hide OpenPaper, MarkedPaper, DecidePaper, Finish, PaperView, EnterBars, MildSlippage;
    assert Real(Arrived(p, group));
    hide Real;
    if !OpensPositive(group) {
      OpenReal(Arrived(p, group), cfg, group, wall);
    } else {
      var close := group[0].time + StepOf(cfg.interval);
      var m := MarkedPaper(p, cfg, group, wall);
      MarkedReal(p, cfg, group, wall);
      DecideReal(m, cfg, PaperView(m, cfg, close), group, wall);
      FinishReal(DecidePaper(m, cfg, PaperView(m, cfg, close), group, wall), cfg, close, wall);
    }
  }

  lemma {:induction false} GroupsReal(p: Paper, cfg: PaperConfig, groups: seq<seq<Bar>>, wall: int)
    requires Real(p) && MildSlippage(cfg.rules.costs) && BundlesOk(cfg.bundles) && NonEmptyGroups(groups)
    ensures Real(ProcessGroups(p, cfg, groups, wall).0)
    decreases |groups|
  {
    if groups != [] {
      hide Real, ProcessGroup, MildSlippage;
      GroupReal(p, cfg, groups[0], wall);
      var (q, ok) := ProcessGroup(p, cfg, groups[0], wall);
      if ok {
        GroupsReal(q, cfg, groups[1..], wall);
      }
    }
  }

  lemma CrashReal(p: Paper, cfg: PaperConfig, group: seq<Bar>, wall: int, at: CrashPoint)
    requires Real(p) && MildSlippage(cfg.rules.costs) && group != [] && BundlesOk(cfg.bundles)
    requires Reached(p, cfg, group, wall, at)
    ensures Real(CrashedAt(p, cfg, group, wall, at))
  {
    hide OpenPaper, MarkedPaper, DecidePaper, PaperView, EnterBars, MildSlippage, SettleFills, FillsOf, Filter;
    assert Real(Arrived(p, group));
    hide Real;
    match at
    case Opening(n) =>
      OpenReal(Arrived(p, group), cfg, group[..n], wall);
    case Filling(n, k) =>
      OpenReal(Arrived(p, group), cfg, group[..n], wall);
      assert group[n] in group[..n + 1];
      BarReal(OpenedTo(p, cfg, group, n, wall), cfg, group[n], k, wall);
    case Deciding(n) =>
      var m := MarkedPaper(p, cfg, group, wall);
      MarkedReal(p, cfg, group, wall);
      DecideReal(m, cfg, PaperView(m, cfg, group[0].time + StepOf(cfg.interval)), group[..n], wall);
  }

  lemma RestartReal(p: Paper, cfg: PaperConfig)
    requires Real(p)
    ensures Real(Restart(cfg, p.journal, p.saved))
  {
    hide RecallAll;
    RecallIsRemember(NewPaper(cfg), p.journal);
  }

  lemma ReactReal(p: Paper, cfg: PaperConfig, x: Stimulus)
    requires KnownBundles(cfg) && MildSlippage(cfg.rules.costs) && Real(p)
    ensures Real(React(p, cfg, x))
  {
    hide ProcessGroups, SeedSymbols, ReplaySort, Groups, Reached, CrashedAt, Restart, MildSlippage;
    match x
    case Fetch(candles, wall) =>
      SeedSymbolsKeep(p, cfg, cfg.symbols, candles);
    case Batch(bars, wall) =>
      GroupsReal(p, cfg, Groups(ReplaySort(Filter(bars, Relevant(cfg)))), wall);
    case StalenessCheck(now) =>
    case Restarted =>
      RestartReal(p, cfg);
    case Crashed(group, wall, at) =>
      if group != [] && Reached(p, cfg, group, wall, at) {
        CrashReal(p, cfg, group, wall, at);
        RestartReal(CrashedAt(p, cfg, group, wall, at), cfg);
      }
  }

  /** In every reachable state no order queued or saved is dust, and every journalled fill moved a
      positive quantity at a price that is not negative. */
  lemma {:induction false} EverythingIsReal(cfg: PaperConfig, stimuli: seq<Stimulus>)
    requires KnownBundles(cfg) && MildSlippage(cfg.rules.costs)
    ensures Real(Life(cfg, stimuli))
  {
    if stimuli != [] {
      hide Real, MildSlippage;
      var n := |stimuli| - 1;
      EverythingIsReal(cfg, stimuli[..n]);
      ReactReal(Life(cfg, stimuli[..n]), cfg, stimuli[n]);
    } else {
      assert Real(NewPaper(cfg));
    }
  }

  // ------------------------------------------------------------- profit

  /** The fills a journal holds, as the books see them. */
  function JournalFills(journal: seq<Entry>): seq<Fill> {
    if journal == [] then []
    else
      var last := journal[|journal| - 1];
      JournalFills(journal[..|journal| - 1]) + (if last.event.FillEvent? then [RestoredFill(last)] else [])
  }

  lemma {:induction false} SettleAllNext(k: Books, fills: seq<Fill>, f: Fill)
    ensures SettleAll(k, fills + [f]) == Settle(SettleAll(k, fills), f)
    decreases |fills|
  {
    hide Settle;
    if fills == [] {
      assert fills + [f] == [f];
      assert SettleAll(Settle(k, f), [f][1..]) == Settle(k, f);
    } else {
      assert (fills + [f])[1..] == fills[1..] + [f];
      SettleAllNext(Settle(k, fills[0]), fills[1..], f);
    }
  }

  lemma {:induction false} RememberIsSettle(cfg: PaperConfig, journal: seq<Entry>)
    ensures var k := SettleAll(NewBooks(cfg.initialEquity), JournalFills(journal));
      var x := RememberAll(NewEssence(cfg), journal);
      x.cash == k.account.cash && x.book == k.account.book && x.basis == k.basis && x.realized == k.realized
  {
    if journal != [] {
      var n := |journal| - 1;
      RememberIsSettle(cfg, journal[..n]);
      hide BasisStep, Notional, Adjust, SettleAll;
      if journal[n].event.FillEvent? {
        SettleAllNext(NewBooks(cfg.initialEquity), JournalFills(journal[..n]), RestoredFill(journal[n]));
      } else {
        assert JournalFills(journal) == JournalFills(journal[..n]) + [] == JournalFills(journal[..n]);
      }
    } else {
      assert SettleAll(NewBooks(cfg.initialEquity), []) == NewBooks(cfg.initialEquity);
    }
  }

  lemma {:induction false} JournalFillsReal(journal: seq<Entry>)
    requires RealJournal(journal)
    ensures forall f :: f in JournalFills(journal) ==> RealFill(f)
  {
    if journal != [] {
      JournalFillsReal(journal[..|journal| - 1]);
      assert RealEntry(journal[|journal| - 1]);
    }
  }

  /** Profit decomposition in every reachable engine state, across restarts and crashes: equity
      above the initial stake is realized plus unrealized profit, exactly while no dust holding
      occurs and within 2e-12 of the highest price per fill otherwise. */
  lemma ProfitInEveryState(cfg: PaperConfig, stimuli: seq<Stimulus>, marks: map<string, real>, top: real)
    requires KnownBundles(cfg) && MildSlippage(cfg.rules.costs)
    requires 0.0 <= top && forall f :: f in JournalFills(Life(cfg, stimuli).journal) ==> f.price <= top
    requires MarksCover(Life(cfg, stimuli).desk.account.book, marks)
    ensures var p := Life(cfg, stimuli);
      var gap := Equity(p.desk.account, marks) - cfg.initialEquity
                 - (p.realized + Unrealized(p.desk.account.book.symbols, p.basis, marks));
      && Abs(gap) <= DriftBound(top, |JournalFills(p.journal)|)
      && (CleanRun(NewBooks(cfg.initialEquity), JournalFills(p.journal)) ==> gap == 0.0)
  {
    hide Life, Journalled, RealJournal, MildSlippage;
    JournalTellsAll(cfg, stimuli);
    EverythingIsReal(cfg, stimuli);
    JournalFillsReal(Life(cfg, stimuli).journal);
    ProfitInJournal(Life(cfg, stimuli), cfg, marks, top);
  }

  lemma ProfitInJournal(p: Paper, cfg: PaperConfig, marks: map<string, real>, top: real)
    requires Journalled(p, cfg) && MarksCover(p.desk.account.book, marks)
    requires var fills := JournalFills(p.journal);
      RealFills(fills) && 0.0 <= top && forall f :: f in fills ==> 0.0 <= f.price <= top
    ensures var gap := Equity(p.desk.account, marks) - cfg.initialEquity
                       - (p.realized + Unrealized(p.desk.account.book.symbols, p.basis, marks));
      && Abs(gap) <= DriftBound(top, |JournalFills(p.journal)|)
      && (CleanRun(NewBooks(cfg.initialEquity), JournalFills(p.journal)) ==> gap == 0.0)
  {
    hide SettleAll, Unrealized, DriftBound, CleanRun, RememberAll, JournalFills, HeldValue, RealFills, MarksCover;
    RememberIsSettle(cfg, p.journal);
    var k := SettleAll(NewBooks(cfg.initialEquity), JournalFills(p.journal));
    assert Equity(p.desk.account, marks) == Equity(k.account, marks);
    assert p.desk.account.book == k.account.book && p.basis == k.basis && p.realized == k.realized;
    ProfitDecomposition(cfg.initialEquity, JournalFills(p.journal), marks, top);
  }
}
