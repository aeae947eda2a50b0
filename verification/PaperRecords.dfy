/** What the paper engine tells its journal about halts, reports and seeding, and what it saves of
    its buffers (paper/engine.py). */
module PaperRecords {
  import opened Collections
  import opened Market
  import opened Merging
  import opened Source
  import opened Oms
  import opened Venue
  import opened Risk
  import opened Desk
  import opened Accounting
  import opened Strategies
  import opened PaperState
  import opened PaperRefinement

  /** One line, or none. */
  function LineIf(told: bool, wall: int, e: Event): seq<Entry> {
    if told then [Entry(wall, e)] else []
  }

  // ------------------------------------------------------------- halts

  /** The synchronisation tells every reason that starts, in name order, and then every one that
      ends; a reason that stays or stays away is not mentioned. */
  lemma HaltsAreTold(p: Paper, wall: int)
    ensures var risk := Halted(p.desk.risk);
      var starts := (r: Reason) => r in risk && KillReason.Drawdown(r) !in p.kill;
      var ends := (r: Reason) => r !in risk && KillReason.Drawdown(r) in p.kill;
      SyncHalts(p, wall).journal == p.journal
        + LineIf(starts(DailyDd), wall, HaltEvent(KillReason.Drawdown(DailyDd)))
        + LineIf(starts(MonthlyDd), wall, HaltEvent(KillReason.Drawdown(MonthlyDd)))
        + LineIf(starts(WeeklyDd), wall, HaltEvent(KillReason.Drawdown(WeeklyDd)))
        + LineIf(ends(DailyDd), wall, HaltClearedEvent(KillReason.Drawdown(DailyDd)))
        + LineIf(ends(WeeklyDd), wall, HaltClearedEvent(KillReason.Drawdown(WeeklyDd)))
        + LineIf(ends(MonthlyDd), wall, HaltClearedEvent(KillReason.Drawdown(MonthlyDd)))
  {
    hide Halted, TripReason, ClearReason;
    var h := Halted(p.desk.risk);
    var p1 := TripReason(p, h, DailyDd, wall);
    var p2 := TripReason(p1, h, MonthlyDd, wall);
    var p3 := TripReason(p2, h, WeeklyDd, wall);
    var p4 := ClearReason(p3, h, DailyDd, wall);
    var p5 := ClearReason(p4, h, WeeklyDd, wall);
    TripTells(p, h, DailyDd, wall);
    TripTells(p1, h, MonthlyDd, wall);
    TripTells(p2, h, WeeklyDd, wall);
    ClearTells(p3, h, DailyDd, wall);
    ClearTells(p4, h, WeeklyDd, wall);
    ClearTells(p5, h, MonthlyDd, wall);
  }

  lemma TripTells(p: Paper, h: set<Reason>, r: Reason, wall: int)
    ensures var q := TripReason(p, h, r, wall);
      && q.journal == p.journal + LineIf(r in h && KillReason.Drawdown(r) !in p.kill, wall, HaltEvent(KillReason.Drawdown(r)))
      && q.kill == p.kill + (if r in h then {KillReason.Drawdown(r)} else {})
  {
  }

  lemma ClearTells(p: Paper, h: set<Reason>, r: Reason, wall: int)
    ensures var q := ClearReason(p, h, r, wall);
      && q.journal == p.journal + LineIf(r !in h && KillReason.Drawdown(r) in p.kill, wall, HaltClearedEvent(KillReason.Drawdown(r)))
      && q.kill == p.kill - (if r in h then {} else {KillReason.Drawdown(r)})
  {
  }

  // ------------------------------------------------------------- reports

  /** How often a report of this period has been told. */
  function Told(journal: seq<Entry>, period: Period): nat {
    if journal == [] then 0
    else
      var n := |journal| - 1;
      Told(journal[..n], period) + (if journal[n].event == ReportEvent(period) then 1 else 0)
  }

  lemma ToldNext(p: Paper, wall: int, e: Event, period: Period)
    ensures Told(Log(p, wall, e).journal, period) == Told(p.journal, period) + (if e == ReportEvent(period) then 1 else 0)
  {
    assert (p.journal + [Entry(wall, e)])[..|p.journal|] == p.journal;
  }

  lemma {:induction false} FillsTellNoReport(p: Paper, fills: seq<Fill>, wall: int, period: Period)
    ensures Told(SettleFills(p, fills, wall).journal, period) == Told(p.journal, period)
    decreases |fills|
  {
    if fills != [] {
      hide Settle, KindOf, Equity, Told, QtyOf;
      var f := fills[0];
      var q := SettleFill(p, f, wall);
      var k := Settle(BooksOf(p), f);
      var before := p.(desk := p.desk.(account := k.account), basis := k.basis, realized := k.realized, nFills := p.nFills + 1);
      var e := q.journal[|p.journal|].event;
      assert q == Log(before, wall, e) && e.FillEvent?;
      ToldNext(before, wall, e, period);
      FillsTellNoReport(q, fills[1..], wall, period);
    }
  }

  lemma {:induction false} OpenTellsNoReport(p: Paper, cfg: PaperConfig, group: seq<Bar>, wall: int, period: Period)
    ensures Told(OpenPaper(p, cfg, group, wall).journal, period) == Told(p.journal, period)
    decreases |group|
  {
    if group != [] && group[0].open > 0.0 {
      hide SettleFills, FillsOf, Told, Filter;
      var b := group[0];
      var hit := Filter(p.desk.pending, OrderFor(b.symbol));
      FillsTellNoReport(p.(desk := p.desk.(pending := Filter(p.desk.pending, OrderNotFor(b.symbol)))),
                        FillsOf(cfg.rules.costs, hit, b.open, b.time), wall, period);
      OpenTellsNoReport(OpenPaperBar(p, cfg, b, wall), cfg, group[1..], wall, period);
    }
  }

  lemma LineTellsNoReport(p: Paper, q: Paper, told: bool, wall: int, e: Event, period: Period)
    requires q.journal == p.journal + LineIf(told, wall, e) && !e.ReportEvent?
    ensures Told(q.journal, period) == Told(p.journal, period)
  {
    if told {
      ToldNext(p, wall, e, period);
    } else {
      assert p.journal + [] == p.journal;
    }
  }

  lemma TripTellsNoReport(p: Paper, h: set<Reason>, r: Reason, wall: int, period: Period)
    ensures Told(TripReason(p, h, r, wall).journal, period) == Told(p.journal, period)
  {
    hide TripReason, Told;
    TripTells(p, h, r, wall);
    LineTellsNoReport(p, TripReason(p, h, r, wall), r in h && KillReason.Drawdown(r) !in p.kill, wall,
                      HaltEvent(KillReason.Drawdown(r)), period);
  }

  lemma ClearTellsNoReport(p: Paper, h: set<Reason>, r: Reason, wall: int, period: Period)
    ensures Told(ClearReason(p, h, r, wall).journal, period) == Told(p.journal, period)
  {
    hide ClearReason, Told;
    ClearTells(p, h, r, wall);
    LineTellsNoReport(p, ClearReason(p, h, r, wall), r !in h && KillReason.Drawdown(r) in p.kill, wall,
                      HaltClearedEvent(KillReason.Drawdown(r)), period);
  }

  lemma SyncTellsNoReport(p: Paper, wall: int, period: Period)
    ensures Told(SyncHalts(p, wall).journal, period) == Told(p.journal, period)
  {
    hide Halted, TripReason, ClearReason, Told;
    var h := Halted(p.desk.risk);
    var p1 := TripReason(p, h, DailyDd, wall);
    var p2 := TripReason(p1, h, MonthlyDd, wall);
    var p3 := TripReason(p2, h, WeeklyDd, wall);
    var p4 := ClearReason(p3, h, DailyDd, wall);
    var p5 := ClearReason(p4, h, WeeklyDd, wall);
    TripTellsNoReport(p, h, DailyDd, wall, period);
    TripTellsNoReport(p1, h, MonthlyDd, wall, period);
    TripTellsNoReport(p2, h, WeeklyDd, wall, period);
    ClearTellsNoReport(p3, h, DailyDd, wall, period);
    ClearTellsNoReport(p4, h, WeeklyDd, wall, period);
    ClearTellsNoReport(p5, h, MonthlyDd, wall, period);
  }

  lemma {:induction false} DecisionsTellNoReport(p: Paper, cfg: PaperConfig, view: View, group: seq<Bar>, wall: int, period: Period)
    requires BundlesOk(cfg.bundles)
    ensures Told(DecidePaper(p, cfg, view, group, wall).journal, period) == Told(p.journal, period)
    decreases |group|
  {
    if group != [] {
      hide DecidePaperBar, Told;
      OneDecisionTellsNoReport(p, cfg, view, group[0], wall, period);
      DecisionsTellNoReport(DecidePaperBar(p, cfg, view, group[0], wall), cfg, view, group[1..], wall, period);
    }
  }

  lemma OneDecisionTellsNoReport(p: Paper, cfg: PaperConfig, view: View, b: Bar, wall: int, period: Period)
    requires BundlesOk(cfg.bundles)
    ensures Told(DecidePaperBar(p, cfg, view, b, wall).journal, period) == Told(p.journal, period)
  {
    hide Strategies.Decide, DeltaOrders, AllowedTargets, EngineHalted, Told;
    if b.symbol in cfg.bundles {
      var q := DecidePaperBar(p, cfg, view, b, wall);
      var e := q.journal[|p.journal|].event;
      assert q.journal == Log(p, wall, e).journal && e.DecisionEvent?;
      ToldNext(p, wall, e, period);
    }
  }

  lemma ReportsTell(p: Paper, cal: Calendar, close: int, wall: int)
    ensures var q := Reports(p, cal, close, wall);
      && Told(q.journal, Daily) == Told(p.journal, Daily)
           + (if p.prevClose.Some? && cal.day(close) != cal.day(p.prevClose.value) then 1 else 0)
      && Told(q.journal, Weekly) == Told(p.journal, Weekly)
           + (if p.prevClose.Some? && cal.week(close) != cal.week(p.prevClose.value) then 1 else 0)
  {
    hide Told;
    if p.prevClose.Some? {
      var p1 := if cal.day(close) != cal.day(p.prevClose.value) then Log(p, wall, ReportEvent(Daily)) else p;
      forall period ensures Told(p1.journal, period) == Told(p.journal, period)
        + (if p1 != p && period == Daily then 1 else 0)
      {
        ToldNext(p, wall, ReportEvent(Daily), period);
      }
      ToldNext(p1, wall, ReportEvent(Weekly), Daily);
      ToldNext(p1, wall, ReportEvent(Weekly), Weekly);
    }
  }

  /** A completed group tells a daily (weekly) report, once, exactly when its close falls on another
      day (week) than the close of the last completed group, and becomes that group itself. */
  lemma GroupTellsReports(p: Paper, cfg: PaperConfig, g: seq<Bar>, wall: int)
    requires g != [] && OpensPositive(g) && BundlesOk(cfg.bundles)
    ensures var q := ProcessGroup(p, cfg, g, wall).0;
      var close := g[0].time + StepOf(cfg.interval);
      && q.prevClose == Some(close)
      && Told(q.journal, Daily) == Told(p.journal, Daily)
           + (if p.prevClose.Some? && cfg.rules.cal.day(close) != cfg.rules.cal.day(p.prevClose.value) then 1 else 0)
      && Told(q.journal, Weekly) == Told(p.journal, Weekly)
           + (if p.prevClose.Some? && cfg.rules.cal.week(close) != cfg.rules.cal.week(p.prevClose.value) then 1 else 0)
  {
    hide Told, OpenPaper, SyncHalts, CloseGroup, DecidePaper, PaperView, StateFile, EnterBars, Reports, StepOf;
    var close := g[0].time + StepOf(cfg.interval);
    var filled := OpenPaper(Arrived(p, g), cfg, g, wall);
    var closed := filled.(desk := CloseGroup(filled.desk, cfg.rules, g, close));
    var m := MarkedPaper(p, cfg, g, wall);
    var decided := DecidePaper(m, cfg, PaperView(m, cfg, close), g, wall);
    OpenPaperDesk(Arrived(p, g), cfg, g, wall);
    SyncMirrorsRisk(closed, wall);
    DecisionsKeepClose(m, cfg, PaperView(m, cfg, close), g, wall);
    forall period ensures Told(decided.journal, period) == Told(p.journal, period) {
      OpenTellsNoReport(Arrived(p, g), cfg, g, wall, period);
      SyncTellsNoReport(closed, wall, period);
      DecisionsTellNoReport(m, cfg, PaperView(m, cfg, close), g, wall, period);
    }
    ReportsTell(decided, cfg.rules.cal, close, wall);
  }

  lemma {:induction false} DecisionsKeepClose(p: Paper, cfg: PaperConfig, view: View, group: seq<Bar>, wall: int)
    requires BundlesOk(cfg.bundles)
    ensures DecidePaper(p, cfg, view, group, wall).prevClose == p.prevClose
    decreases |group|
  {
    if group != [] {
      hide Strategies.Decide, DeltaOrders, AllowedTargets;
      DecisionsKeepClose(DecidePaperBar(p, cfg, view, group[0], wall), cfg, view, group[1..], wall);
    }
  }

  // ------------------------------------------------------------- seeding

  /** By how much a buffer grew. */
  function Growth(p: Paper, q: Paper, s: string): nat {
    var before, after := |BufferOf(p.buffers, s)|, |BufferOf(q.buffers, s)|;
    if after > before then after - before else 0
  }

  lemma SeedOneCounts(p: Paper, cfg: PaperConfig, s: string, bars: seq<Bar>)
    requires s in cfg.bundles
    ensures var (q, k) := SeedOne(p, cfg, s, bars);
      && q.journal == p.journal && k == Growth(p, q, s)
      && forall x :: x != s ==> BufferOf(q.buffers, x) == BufferOf(p.buffers, x)
  {
    hide Merge, Enough, Fetched, MarkLast;
  }

  lemma {:induction false} SeedCounts(p: Paper, cfg: PaperConfig, symbols: seq<string>, bars: seq<Bar>)
    requires Distinct(symbols) && forall s :: s in symbols ==> s in cfg.bundles
    ensures var (q, added) := SeedSymbols(p, cfg, symbols, bars);
      && q.journal == p.journal
      && (forall s :: s in added <==> s in symbols)
      && (forall s :: s in symbols ==> added[s] == Growth(p, q, s))
      && (forall s :: s !in symbols ==> BufferOf(q.buffers, s) == BufferOf(p.buffers, s))
  {
    if symbols != [] {
      hide SeedOne, BufferOf;
      var n := |symbols| - 1;
      assert symbols[n] !in symbols[..n];
      assert forall s :: s in symbols <==> s in symbols[..n] || s == symbols[n];
      SeedCounts(p, cfg, symbols[..n], bars);
      SeedOneCounts(SeedSymbols(p, cfg, symbols[..n], bars).0, cfg, symbols[n], bars);
    }
  }

  /** Seeding leaves one line exactly when some buffer grew, and it tells by how much each did. */
  lemma SeedIsTold(p: Paper, cfg: PaperConfig, bars: seq<Bar>, wall: int)
    requires Distinct(cfg.symbols) && forall s :: s in cfg.symbols ==> s in cfg.bundles
    ensures var q := Seed(p, cfg, bars, wall);
      q.journal == p.journal
        + LineIf(exists s :: s in cfg.symbols && Growth(p, q, s) > 0, wall,
                 SeedEvent(map s | s in cfg.symbols :: Growth(p, q, s)))
  {
    hide SeedSymbols;
    SeedCounts(p, cfg, cfg.symbols, bars);
    var (q0, added) := SeedSymbols(p, cfg, cfg.symbols, bars);
    var q := Seed(p, cfg, bars, wall);
    assert q.buffers == q0.buffers;
    assert forall s :: Growth(p, q, s) == Growth(p, q0, s);
    assert added == map s | s in cfg.symbols :: Growth(p, q, s);
    assert AnyAdded(added) <==> exists s :: s in cfg.symbols && Growth(p, q, s) > 0;
  }

  /** A mark that is the close of the newest bar in the buffer. */
  predicate MarkedAtNewest(p: Paper, s: string) {
    var buffer := BufferOf(p.buffers, s);
    buffer != [] && s in p.desk.marks && p.desk.marks[s] == buffer[|buffer| - 1].close
  }

  predicate SameOf(p: Paper, q: Paper, s: string) {
    && BufferOf(q.buffers, s) == BufferOf(p.buffers, s)
    && (s in q.desk.marks <==> s in p.desk.marks)
    && (s in p.desk.marks && s in q.desk.marks ==> q.desk.marks[s] == p.desk.marks[s])
  }

  lemma SeedOneMarks(p: Paper, cfg: PaperConfig, s: string, bars: seq<Bar>)
    requires s in cfg.bundles
    ensures var q := SeedOne(p, cfg, s, bars).0;
      && (if Enough(p, cfg, s) || Fetched(cfg, s, bars) == [] then SameOf(p, q, s) else MarkedAtNewest(q, s))
      && forall x :: x != s ==> SameOf(p, q, x)
  {
    hide Merge, Enough, Fetched;
    if Fetched(cfg, s, bars) != [] {
      MergeNotEmpty(Fetched(cfg, s, bars), BufferOf(p.buffers, s));
    }
  }

  lemma MergeNotEmpty(incoming: seq<Bar>, existing: seq<Bar>)
    requires incoming != []
    ensures Merge(incoming, existing) != []
  {
    hide LastPerTime, SortBy, TimeLeq;
    var all := incoming + existing;
    LastPerTimeSpec(all);
    assert all[0] in all;
    assert HasTime(all, all[0].time);
    SortByContents(LastPerTime(all), TimeLeq);
  }

  lemma {:induction false} SymbolsMark(p: Paper, cfg: PaperConfig, symbols: seq<string>, bars: seq<Bar>, s: string)
    requires Distinct(symbols) && forall x :: x in symbols ==> x in cfg.bundles
    ensures var q := SeedSymbols(p, cfg, symbols, bars).0;
      if s !in symbols || Enough(p, cfg, s) || Fetched(cfg, s, bars) == [] then SameOf(p, q, s) else MarkedAtNewest(q, s)
  {
    if symbols != [] {
      hide SeedOne, Fetched, MarkedAtNewest;
      var n := |symbols| - 1;
      var q := SeedSymbols(p, cfg, symbols[..n], bars).0;
      SymbolsMark(p, cfg, symbols[..n], bars, s);
      assert symbols[n] !in symbols[..n] && (s in symbols <==> s in symbols[..n] || s == symbols[n]);
      SeedOneMarks(q, cfg, symbols[n], bars);
      KeepsMarked(q, SeedOne(q, cfg, symbols[n], bars).0, s);
    }
  }

  lemma KeepsMarked(p: Paper, q: Paper, s: string)
    ensures SameOf(p, q, s) && MarkedAtNewest(p, s) ==> MarkedAtNewest(q, s)
  {
  }

  /** Seeding leaves a symbol with enough history, or with nothing fetched for it, as it was, and marks
      every other traded symbol at the close of the newest bar its buffer then holds. */
  lemma SeedMarks(p: Paper, cfg: PaperConfig, bars: seq<Bar>, wall: int, s: string)
    requires Distinct(cfg.symbols) && forall x :: x in cfg.symbols ==> x in cfg.bundles
    ensures var q := Seed(p, cfg, bars, wall);
      if s !in cfg.symbols || Enough(p, cfg, s) || Fetched(cfg, s, bars) == [] then SameOf(p, q, s) else MarkedAtNewest(q, s)
  {
    hide SeedSymbols, Fetched, Enough;
    SymbolsMark(p, cfg, cfg.symbols, bars, s);
  }

  // ------------------------------------------------------------- the saved buffers

  /** The state file keeps the newest bars of every traded symbol: all of them, or five more than the
      longest lookback of its features. */
  lemma SavedBuffers(p: Paper, cfg: PaperConfig, s: string, n: nat)
    requires s in cfg.bundles
    requires forall f :: f in cfg.bundles[s].features ==> f.lookback <= n
    requires exists f :: f in cfg.bundles[s].features && f.lookback == n
    ensures var saved := StateFile(p, cfg).buffers;
      var all := BufferOf(p.buffers, s);
      && s in saved && |saved[s]| == (if |all| < n + 5 then |all| else n + 5)
      && saved[s] == all[|all| - |saved[s]|..]
  {
    hide MaxLookback;
    LongestIs(cfg.bundles[s].features, n);
  }

  lemma {:induction false} LongestIs(features: seq<Feature>, n: nat)
    requires forall f :: f in features ==> f.lookback <= n
    requires features != [] && exists f :: f in features && f.lookback == n
    ensures MaxLookback(features) == n
  {
    var k := |features| - 1;
    assert features == features[..k] + [features[k]];
    assert features[k] in features;
    LongestBelow(features[..k], n);
    if features[k].lookback != n {
      LongestIs(features[..k], n);
    }
  }

  lemma {:induction false} LongestBelow(features: seq<Feature>, n: nat)
    requires forall f :: f in features ==> f.lookback <= n
    ensures MaxLookback(features) <= n
  {
    if features != [] {
      assert features[|features| - 1] in features;
      LongestBelow(features[..|features| - 1], n);
    }
  }
}
