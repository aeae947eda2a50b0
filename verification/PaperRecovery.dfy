/** What the journal and the state file bring back after a restart, and what they do not. */
module PaperRecovery {
  import opened Collections
  import opened Market
  import opened Merging
  import opened Timeline
  import opened Source
  import opened Oms
  import opened Venue
  import opened Risk
  import opened Desk
  import opened CostBasis
  import opened Accounting
  import opened Strategies
  import opened PaperState
  import opened PaperRefinement

  /** The part of the engine that the journal alone determines. */
  datatype Essence = Essence(
    cash: real, book: Book, basis: map<string, Basis>, realized: real, nFills: nat, nDecisions: nat)

  function EssenceOf(p: Paper): Essence {
    Essence(p.desk.account.cash, p.desk.account.book, p.basis, p.realized, p.nFills, p.nDecisions)
  }

  function NewEssence(cfg: PaperConfig): Essence {
    EssenceOf(NewPaper(cfg))
  }

  /** What one fill does to the essence: neither order id nor fill time matters. */
  function SettleEssence(x: Essence, symbol: string, side: Side, quantity: real, price: real, fee: real): Essence {
    var delta := Signed(side, quantity);
    var (b, profit) := BasisStep(BasisOf(x.basis, symbol), delta, price);
    Essence(x.cash - Notional(delta, price) - fee, Adjust(x.book, symbol, delta), x.basis[symbol := b],
            x.realized + (profit - fee), x.nFills + 1, x.nDecisions)
  }

  function Remember(x: Essence, e: Event): Essence {
    match e
    case FillEvent(_, symbol, side, quantity, price, fee, _, _, _, _, _) => SettleEssence(x, symbol, side, quantity, price, fee)
    case DecisionEvent(_, _, _, _) => x.(nDecisions := x.nDecisions + 1)
    case _ => x
  }

  function RememberAll(x: Essence, journal: seq<Entry>): Essence {
    if journal == [] then x
    else Remember(RememberAll(x, journal[..|journal| - 1]), journal[|journal| - 1].event)
  }

  /** The engine's books are what its journal says. */
  ghost predicate Journalled(p: Paper, cfg: PaperConfig) {
    EssenceOf(p) == RememberAll(NewEssence(cfg), p.journal)
  }

  lemma {:induction false} RecallIsRemember(p: Paper, journal: seq<Entry>)
    ensures EssenceOf(RecallAll(p, journal)) == RememberAll(EssenceOf(p), journal)
    ensures var q := RecallAll(p, journal);
      q.desk == p.desk.(account := q.desk.account) && q.buffers == p.buffers && q.kill == p.kill
      && q.lastBarTime == p.lastBarTime && q.prevClose == p.prevClose
  {
    if journal != [] {
      hide BasisStep, Notional, Adjust;
      RecallIsRemember(p, journal[..|journal| - 1]);
    }
  }

  // ------------------------------------------------------------- every step is journalled

  lemma LogKeeps(p: Paper, cfg: PaperConfig, q: Paper, entry: Entry)
    requires Journalled(p, cfg)
    requires q.journal == p.journal + [entry] && EssenceOf(q) == Remember(EssenceOf(p), entry.event)
    ensures Journalled(q, cfg)
  {
    assert q.journal[..|q.journal| - 1] == p.journal;
  }

  lemma SettleFillKeeps(p: Paper, cfg: PaperConfig, f: Fill, wall: int)
    requires Journalled(p, cfg)
    ensures Journalled(SettleFill(p, f, wall), cfg)
    ensures EssenceOf(SettleFill(p, f, wall)) == SettleEssence(EssenceOf(p), f.symbol, f.side, f.quantity, f.price, f.fee)
  {
    hide BasisStep, Notional, Adjust, KindOf, Equity;
    var q := SettleFill(p, f, wall);
    LogKeeps(p, cfg, q, q.journal[|p.journal|]);
  }

  lemma {:induction false} SettleFillsKeep(p: Paper, cfg: PaperConfig, fills: seq<Fill>, wall: int)
    requires Journalled(p, cfg)
    ensures Journalled(SettleFills(p, fills, wall), cfg)
    ensures SettleFills(p, fills, wall).nFills == p.nFills + |fills|
    decreases |fills|
  {
    if fills != [] {
      hide Journalled;
      SettleFillKeeps(p, cfg, fills[0], wall);
      SettleFillsKeep(SettleFill(p, fills[0], wall), cfg, fills[1..], wall);
    }
  }

  lemma {:induction false} OpenKeeps(p: Paper, cfg: PaperConfig, group: seq<Bar>, wall: int)
    requires Journalled(p, cfg)
    ensures Journalled(OpenPaper(p, cfg, group, wall), cfg)
    decreases |group|
  {
    if group != [] && group[0].open > 0.0 {
      var b := group[0];
      var p1 := p.(desk := p.desk.(pending := Filter(p.desk.pending, OrderNotFor(b.symbol))));
      assert Journalled(p1, cfg);
      hide Journalled, SettleFills;
      SettleFillsKeep(p1, cfg, FillsOf(cfg.rules.costs, Filter(p.desk.pending, OrderFor(b.symbol)), b.open, b.time), wall);
      OpenKeeps(OpenPaperBar(p, cfg, b, wall), cfg, group[1..], wall);
    }
  }

  lemma TripKeeps(p: Paper, cfg: PaperConfig, h: set<Reason>, r: Reason, wall: int)
    requires Journalled(p, cfg)
    ensures Journalled(TripReason(p, h, r, wall), cfg) && Journalled(ClearReason(p, h, r, wall), cfg)
  {
    LogKeepsOther(p, cfg, p.(kill := p.kill + {Drawdown(r)}), wall, HaltEvent(Drawdown(r)));
    LogKeepsOther(p, cfg, p.(kill := p.kill - {Drawdown(r)}), wall, HaltClearedEvent(Drawdown(r)));
  }

  lemma LogKeepsOther(p: Paper, cfg: PaperConfig, q: Paper, wall: int, e: Event)
    requires Journalled(p, cfg) && q.journal == p.journal && EssenceOf(q) == EssenceOf(p)
    requires !e.FillEvent? && !e.DecisionEvent?
    ensures Journalled(Log(q, wall, e), cfg)
  {
    LogKeeps(p, cfg, Log(q, wall, e), Entry(wall, e));
  }

  lemma CloseKeeps(p: Paper, cfg: PaperConfig, group: seq<Bar>, close: int, wall: int)
    requires Journalled(p, cfg)
    ensures Journalled(ClosePaper(p, cfg, group, close, wall), cfg)
  {
    var closed := p.(desk := CloseGroup(p.desk, cfg.rules, group, close));
    assert Journalled(closed, cfg);
    hide Journalled, TripReason, ClearReason, Halted, CloseGroup;
    var h := Halted(closed.desk.risk);
    TripKeeps(closed, cfg, h, DailyDd, wall);
    var p1 := TripReason(closed, h, DailyDd, wall);
    TripKeeps(p1, cfg, h, MonthlyDd, wall);
    var p2 := TripReason(p1, h, MonthlyDd, wall);
    TripKeeps(p2, cfg, h, WeeklyDd, wall);
    var p3 := TripReason(p2, h, WeeklyDd, wall);
    TripKeeps(p3, cfg, h, DailyDd, wall);
    var p4 := ClearReason(p3, h, DailyDd, wall);
    TripKeeps(p4, cfg, h, WeeklyDd, wall);
    TripKeeps(ClearReason(p4, h, WeeklyDd, wall), cfg, h, MonthlyDd, wall);
  }

  lemma HandleKeeps(p: Paper, cfg: PaperConfig, symbol: string, d: Decision, submitTime: int, wall: int)
    requires Journalled(p, cfg)
    ensures Journalled(HandleDecision(p, cfg, symbol, d, submitTime, wall), cfg)
  {
    hide DeltaOrders, AllowedTargets, EngineHalted;
    var q := HandleDecision(p, cfg, symbol, d, submitTime, wall);
    LogKeeps(p, cfg, q, q.journal[|p.journal|]);
  }

  lemma {:induction false} DecideKeepsJournal(p: Paper, cfg: PaperConfig, view: View, group: seq<Bar>, wall: int)
    requires Journalled(p, cfg) && BundlesOk(cfg.bundles)
    ensures Journalled(DecidePaper(p, cfg, view, group, wall), cfg)
    decreases |group|
  {
    if group != [] {
      hide Journalled, HandleDecision, Strategies.Decide;
      var b := group[0];
      if b.symbol in cfg.bundles {
        var d := Strategies.Decide(cfg.bundles[b.symbol], b, view, TakeSnapshot(p.desk.account, p.desk.marks));
        HandleKeeps(p, cfg, b.symbol, d, view.now, wall);
      }
      DecideKeepsJournal(DecidePaperBar(p, cfg, view, b, wall), cfg, view, group[1..], wall);
    }
  }

  lemma FinishKeepsJournal(p: Paper, cfg: PaperConfig, close: int, wall: int)
    requires Journalled(p, cfg)
    ensures Journalled(Finish(p, cfg, close, wall), cfg)
  {
    var p1 := Log(p, wall, ReportEvent(Daily));
    LogKeepsOther(p, cfg, p, wall, ReportEvent(Daily));
    LogKeepsOther(p, cfg, p, wall, ReportEvent(Weekly));
    LogKeepsOther(p1, cfg, p1, wall, ReportEvent(Weekly));
  }

  lemma GroupKeeps(p: Paper, cfg: PaperConfig, group: seq<Bar>, wall: int)
    requires group != [] && BundlesOk(cfg.bundles) && Journalled(p, cfg)
    ensures Journalled(ProcessGroup(p, cfg, group, wall).0, cfg)
  {
    hide Journalled, OpenPaper, ClosePaper, DecidePaper, Finish, PaperView, EnterBars;
    var close := group[0].time + StepOf(cfg.interval);
    var arrived := Arrived(p, group);
    ArrivedKeeps(p, cfg, group);
    OpenKeeps(arrived, cfg, group, wall);
    if OpensPositive(group) {
      var afterOpen := OpenPaper(arrived, cfg, group, wall);
      CloseKeeps(afterOpen, cfg, group, close, wall);
      var marked := ClosePaper(afterOpen, cfg, group, close, wall);
      var decided := DecidePaper(marked, cfg, PaperView(marked, cfg, close), group, wall);
      DecideKeepsJournal(marked, cfg, PaperView(marked, cfg, close), group, wall);
      FinishKeepsJournal(decided, cfg, close, wall);
    }
  }

  lemma ArrivedKeeps(p: Paper, cfg: PaperConfig, group: seq<Bar>)
    requires group != [] && Journalled(p, cfg)
    ensures Journalled(Arrived(p, group), cfg)
  {
  }

  lemma {:induction false} GroupsKeep(p: Paper, cfg: PaperConfig, groups: seq<seq<Bar>>, wall: int)
    requires BundlesOk(cfg.bundles) && NonEmptyGroups(groups) && Journalled(p, cfg)
    ensures Journalled(ProcessGroups(p, cfg, groups, wall).0, cfg)
    decreases |groups|
  {
    if groups != [] {
      hide Journalled, ProcessGroup;
      GroupKeeps(p, cfg, groups[0], wall);
      var (p', ok) := ProcessGroup(p, cfg, groups[0], wall);
      if ok {
        GroupsKeep(p', cfg, groups[1..], wall);
      }
    }
  }

  // ------------------------------------------------------------- every reachable state

  lemma CrashKeeps(p: Paper, cfg: PaperConfig, group: seq<Bar>, wall: int, at: CrashPoint)
    requires group != [] && BundlesOk(cfg.bundles) && Journalled(p, cfg) && Reached(p, cfg, group, wall, at)
    ensures Journalled(CrashedAt(p, cfg, group, wall, at), cfg)
  {
    hide Journalled, OpenPaper, ClosePaper, DecidePaper, PaperView, EnterBars, SettleFills, Filter, FillsOf;
    var close := group[0].time + StepOf(cfg.interval);
    var arrived := Arrived(p, group);
    ArrivedKeeps(p, cfg, group);
    match at
    case Opening(n) =>
      OpenKeeps(arrived, cfg, group[..n], wall);
    case Filling(n, k) =>
      OpenKeeps(arrived, cfg, group[..n], wall);
      var before := OpenPaper(arrived, cfg, group[..n], wall);
      var taken := before.(desk := before.desk.(pending := Filter(before.desk.pending, OrderNotFor(group[n].symbol))));
      SameBooks(before, taken, cfg);
      var fills := FillsOf(cfg.rules.costs, Hits(p, cfg, group, n, wall), group[n].open, group[n].time);
      SettleFillsKeep(taken, cfg, fills[..k], wall);
    case Deciding(n) =>
      OpenKeeps(arrived, cfg, group, wall);
      var afterOpen := OpenPaper(arrived, cfg, group, wall);
      CloseKeeps(afterOpen, cfg, group, close, wall);
      var marked := ClosePaper(afterOpen, cfg, group, close, wall);
      DecideKeepsJournal(marked, cfg, PaperView(marked, cfg, close), group[..n], wall);
  }

  lemma SameBooks(p: Paper, q: Paper, cfg: PaperConfig)
    requires Journalled(p, cfg) && EssenceOf(q) == EssenceOf(p) && q.journal == p.journal
    ensures Journalled(q, cfg)
  {
  }

  /** What can happen to an engine: fetched candles, a batch (which may raise half-way), a
      staleness check, a restart over whatever its journal and state file then hold, or a crash
      inside a group with the restart that follows it. */
  datatype Stimulus =
    | Fetch(candles: seq<Bar>, wall: int)
    | Batch(bars: seq<Bar>, wall: int)
    | StalenessCheck(now: int)
    | Restarted
    | Crashed(group: seq<Bar>, wall: int, at: CrashPoint)

  function AfterCrash(p: Paper, cfg: PaperConfig, group: seq<Bar>, wall: int, at: CrashPoint): Paper
    requires group != [] && BundlesOk(cfg.bundles) && Reached(p, cfg, group, wall, at)
  {
    var crashed := CrashedAt(p, cfg, group, wall, at);
    Restart(cfg, crashed.journal, crashed.saved)
  }

  ghost predicate KnownBundles(cfg: PaperConfig) {
    BundlesOk(cfg.bundles) && forall s :: s in cfg.symbols ==> s in cfg.bundles
  }

  function React(p: Paper, cfg: PaperConfig, s: Stimulus): Paper
    requires KnownBundles(cfg)
  {
    match s
    case Fetch(candles, wall) => Seed(p, cfg, candles, wall)
    case Batch(bars, wall) => ProcessBatch(p, cfg, bars, wall).0
    case StalenessCheck(now) => CheckStaleness(p, cfg, now)
    case Restarted => Restart(cfg, p.journal, p.saved)
    case Crashed(group, wall, at) =>
      if group != [] && Reached(p, cfg, group, wall, at) then AfterCrash(p, cfg, group, wall, at) else p
  }

  function Life(cfg: PaperConfig, stimuli: seq<Stimulus>): Paper
    requires KnownBundles(cfg)
  {
    if stimuli == [] then NewPaper(cfg)
    else React(Life(cfg, stimuli[..|stimuli| - 1]), cfg, stimuli[|stimuli| - 1])
  }

  lemma RestartIsJournalled(cfg: PaperConfig, journal: seq<Entry>, saved: Option<Saved>)
    ensures Journalled(Restart(cfg, journal, saved), cfg)
  {
    RecallIsRemember(NewPaper(cfg), journal);
  }

  lemma {:induction false} SeedSymbolsKeep(p: Paper, cfg: PaperConfig, symbols: seq<string>, bars: seq<Bar>)
    requires forall s :: s in symbols ==> s in cfg.bundles
    ensures var q := SeedSymbols(p, cfg, symbols, bars).0;
      && EssenceOf(q) == EssenceOf(p) && q.journal == p.journal && q.saved == p.saved
      && q.kill == p.kill && q.desk == p.desk.(marks := q.desk.marks)
  {
    if symbols != [] {
      hide Merge, MaxLookback, Fetched;
      SeedSymbolsKeep(p, cfg, symbols[..|symbols| - 1], bars);
    }
  }

  lemma SeedKeeps(p: Paper, cfg: PaperConfig, bars: seq<Bar>, wall: int)
    requires KnownBundles(cfg) && Journalled(p, cfg)
    ensures Journalled(Seed(p, cfg, bars, wall), cfg)
  {
    hide SeedSymbols, RememberAll;
    SeedSymbolsKeep(p, cfg, cfg.symbols, bars);
    var (q, added) := SeedSymbols(p, cfg, cfg.symbols, bars);
    LogKeepsOther(p, cfg, q, wall, SeedEvent(added));
  }

  /** Safety over every life of the engine, with any mix of fetches, batches (failed ones included),
      staleness halts, restarts and crashes at any point of a group: cash, positions, cost basis,
      realized profit and counters are exactly what the journal replays to. */
  lemma {:induction false} JournalTellsAll(cfg: PaperConfig, stimuli: seq<Stimulus>)
    requires KnownBundles(cfg)
    ensures Journalled(Life(cfg, stimuli), cfg)
  {
    if stimuli != [] {
      var n := |stimuli| - 1;
      JournalTellsAll(cfg, stimuli[..n]);
      var p := Life(cfg, stimuli[..n]);
      match stimuli[n]
      case Fetch(candles, wall) =>
        SeedKeeps(p, cfg, candles, wall);
      case Batch(bars, wall) =>
        hide Journalled, ProcessGroups;
        GroupsKeep(p, cfg, Groups(ReplaySort(Filter(bars, Relevant(cfg)))), wall);
      case StalenessCheck(now) =>
        LogKeepsOther(p, cfg, p.(kill := p.kill + {DataStaleness}), now, HaltEvent(DataStaleness));
      case Restarted =>
        RestartIsJournalled(cfg, p.journal, p.saved);
      case Crashed(group, wall, at) =>
        hide CrashedAt, Reached, Journalled, Restart;
        if group != [] && Reached(p, cfg, group, wall, at) {
          var crashed := CrashedAt(p, cfg, group, wall, at);
          RestartIsJournalled(cfg, crashed.journal, crashed.saved);
        }
    }
  }

  // ------------------------------------------------------------- the journal's sums

  /** Cash that the fill lines of a journal paid out, fees included. */
  function Paid(journal: seq<Entry>): real {
    if journal == [] then 0.0
    else
      var e := journal[|journal| - 1].event;
      Paid(journal[..|journal| - 1])
      + (if e.FillEvent? then Signed(e.side, e.quantity) * e.price + e.fee else 0.0)
  }

  /** Quantity of a symbol that they bought, less what they sold. */
  function Bought(journal: seq<Entry>, s: string): real {
    if journal == [] then 0.0
    else
      var e := journal[|journal| - 1].event;
      Bought(journal[..|journal| - 1], s)
      + (if e.FillEvent? && e.symbol == s then Signed(e.side, e.quantity) else 0.0)
  }

  function FillLines(journal: seq<Entry>): nat {
    if journal == [] then 0
    else FillLines(journal[..|journal| - 1]) + (if journal[|journal| - 1].event.FillEvent? then 1 else 0)
  }

  function DecisionLines(journal: seq<Entry>): nat {
    if journal == [] then 0
    else DecisionLines(journal[..|journal| - 1]) + (if journal[|journal| - 1].event.DecisionEvent? then 1 else 0)
  }

  lemma {:induction false} RememberedSums(cfg: PaperConfig, journal: seq<Entry>, s: string)
    ensures var x := RememberAll(NewEssence(cfg), journal);
      && x.cash == cfg.initialEquity - Paid(journal) && QtyOf(x.book, s) == Bought(journal, s)
      && x.nFills == FillLines(journal) && x.nDecisions == DecisionLines(journal)
  {
    if journal != [] {
      hide BasisStep;
      RememberedSums(cfg, journal[..|journal| - 1], s);
    }
  }

  /** In every reachable state: cash is the initial equity less what the fill lines paid, every
      position is what they bought, and the two counters are the numbers of fill and decision lines. */
  lemma BooksAreSums(cfg: PaperConfig, stimuli: seq<Stimulus>, s: string)
    requires KnownBundles(cfg)
    ensures var p := Life(cfg, stimuli);
      && p.desk.account.cash == cfg.initialEquity - Paid(p.journal)
      && QtyOf(p.desk.account.book, s) == Bought(p.journal, s)
      && p.nFills == FillLines(p.journal) && p.nDecisions == DecisionLines(p.journal)
  {
    hide Life, RememberAll, Paid, Bought, FillLines, DecisionLines, NewEssence;
    JournalTellsAll(cfg, stimuli);
    RememberedSums(cfg, Life(cfg, stimuli).journal, s);
  }

  // ------------------------------------------------------------- restart at a group boundary

  /** Every completed group leaves the engine at such a boundary: the state file is up to date. */
  lemma GroupEndsAtBoundary(p: Paper, cfg: PaperConfig, group: seq<Bar>, wall: int)
    requires group != [] && BundlesOk(cfg.bundles) && OpensPositive(group)
    ensures var q := ProcessGroup(p, cfg, group, wall).0;
      q.saved == Some(StateFile(q, cfg)) && q.prevClose == Some(group[0].time + StepOf(cfg.interval))
      && q.lastBarTime == Some(group[0].time)
  {
    hide *;
    var close := group[0].time + StepOf(cfg.interval);
    var filled := OpenPaper(Arrived(p, group), cfg, group, wall);
    var marked := ClosePaper(filled, cfg, group, close, wall);
    var decided := DecidePaper(marked, cfg, PaperView(marked, cfg, close), group, wall);
    GroupPhases(p, cfg, group, wall);
    TimesSoFar(p, cfg, group, close, wall);
    DecideKeepsTimes(marked, cfg, PaperView(marked, cfg, close), group, wall);
    FinishKeeps(decided, cfg, close, wall);
  }

  lemma TimesSoFar(p: Paper, cfg: PaperConfig, group: seq<Bar>, close: int, wall: int)
    requires group != []
    ensures ClosePaper(OpenPaper(Arrived(p, group), cfg, group, wall), cfg, group, close, wall).lastBarTime == Some(group[0].time)
  {
    hide OpenPaper, CloseGroup, SyncHalts, EnterBars;
    OpenPaperDesk(Arrived(p, group), cfg, group, wall);
    var filled := OpenPaper(Arrived(p, group), cfg, group, wall);
    SyncMirrorsRisk(filled.(desk := CloseGroup(filled.desk, cfg.rules, group, close)), wall);
  }

  lemma {:induction false} DecideKeepsTimes(p: Paper, cfg: PaperConfig, view: View, group: seq<Bar>, wall: int)
    requires BundlesOk(cfg.bundles)
    ensures DecidePaper(p, cfg, view, group, wall).lastBarTime == p.lastBarTime
    decreases |group|
  {
    if group != [] {
      hide Strategies.Decide, DeltaOrders, AllowedTargets;
      DecideKeepsTimes(DecidePaperBar(p, cfg, view, group[0], wall), cfg, view, group[1..], wall);
    }
  }

  /** Rebuilt at a group boundary, an engine has the same cash, positions, cost basis, realized
      profit, counters, marks, pending orders and times, and each buffer's newest bars. */
  lemma RestartAtBoundary(p: Paper, cfg: PaperConfig)
    requires BundlesOk(cfg.bundles) && Journalled(p, cfg)
    requires forall s :: s in cfg.symbols <==> s in cfg.bundles
    requires p.saved == Some(StateFile(p, cfg)) && p.lastBarTime.Some? && p.prevClose.Some?
    ensures var q := Restart(cfg, p.journal, p.saved);
      && EssenceOf(q) == EssenceOf(p)
      && q.desk.marks == p.desk.marks && q.desk.pending == p.desk.pending
      && q.lastBarTime == p.lastBarTime && q.prevClose == p.prevClose
      && (forall s :: s in cfg.symbols ==> BufferOf(q.buffers, s) == LastN(BufferOf(p.buffers, s), Keep(cfg, s)))
      && q.journal == p.journal && q.saved == p.saved
  {
    RecallIsRemember(NewPaper(cfg), p.journal);
    assert [] + p.desk.pending == p.desk.pending;
  }

  // ------------------------------------------------------------- counting the queue

  lemma {:induction false} FilterSameLength<T>(xs: seq<T>, p: T -> bool)
    requires |Filter(xs, p)| == |xs|
    ensures Filter(xs, p) == xs
  {
    if xs != [] {
      FilterSameLength(xs[1..], p);
    }
  }

  lemma {:induction false} SplitCounts(orders: seq<Order>, s: string)
    ensures |Filter(orders, OrderFor(s))| + |Filter(orders, OrderNotFor(s))| == |orders|
  {
    if orders != [] {
      SplitCounts(orders[1..], s);
    }
  }

  lemma {:induction false} SettleCounts(p: Paper, fills: seq<Fill>, wall: int)
    ensures SettleFills(p, fills, wall).nFills == p.nFills + |fills|
    decreases |fills|
  {
    if fills != [] {
      hide KindOf, Equity, Settle;
      SettleCounts(SettleFill(p, fills[0], wall), fills[1..], wall);
    }
  }

  /** Every order that leaves the queue is a counted fill. */
  lemma {:induction false} OpenCounts(p: Paper, cfg: PaperConfig, bars: seq<Bar>, wall: int)
    ensures var q := OpenPaper(p, cfg, bars, wall);
      && q.nFills + |q.desk.pending| == p.nFills + |p.desk.pending|
      && |q.desk.pending| <= |p.desk.pending|
      && (|q.desk.pending| == |p.desk.pending| ==> q.desk.pending == p.desk.pending)
    decreases |bars|
  {
    hide SettleFills;
    if bars != [] && bars[0].open > 0.0 {
      var b := bars[0];
      var p1 := p.(desk := p.desk.(pending := Filter(p.desk.pending, OrderNotFor(b.symbol))));
      var fills := FillsOf(cfg.rules.costs, Filter(p.desk.pending, OrderFor(b.symbol)), b.open, b.time);
      SettleCounts(p1, fills, wall);
      SettleFillsDesk(p1, fills, wall);
      SplitCounts(p.desk.pending, b.symbol);
      OpenCounts(OpenPaperBar(p, cfg, b, wall), cfg, bars[1..], wall);
      if |Filter(p.desk.pending, OrderNotFor(b.symbol))| == |p.desk.pending| {
        FilterSameLength(p.desk.pending, OrderNotFor(b.symbol));
      }
    }
  }

  /** A restart drops every halt: whatever stopped the engine, the rebuilt one trades again
      until its own drawdown trips anew. */
  lemma RestartForgetsHalts(cfg: PaperConfig, journal: seq<Entry>, saved: Option<Saved>)
    ensures var q := Restart(cfg, journal, saved);
      !EngineHalted(q) && q.desk.risk == NewRisk(cfg.initialEquity)
  {
    RecallIsRemember(NewPaper(cfg), journal);
  }
}
