/** The paper-trading engine as it runs: mutable buffers, cost basis, counters, journal and state
    file around the shared venue, order manager and risk manager (paper/engine.py). Each method
    is proved to act on the engine's value as the functions of PaperState say. */
module PaperEngine {
  import opened Collections
  import opened Market
  import opened Merging
  import opened Timeline
  import opened Source
  import opened Oms
  import opened Venue
  import opened Risk
  import opened Desk
  import opened Backtest
  import opened CostBasis
  import opened Accounting
  import opened Strategies
  import opened KillSwitch
  import opened PaperState

  /** What a trip records beside its reason. */
  datatype TripDetail = FromRiskManager | Stale(age: int, limit: int)

  class PaperTradingEngine {
    const cfg: PaperConfig
    const venue: SimulatedVenue
    const oms: OrderManager
    const risk: RiskManager
    const kill: KillSwitchController<KillReason, TripDetail>
    var buffers: map<string, seq<Bar>>
    var latestClose: map<string, real>
    var costBasis: map<string, Basis>
    var realizedPnl: real
    var nDecisions: nat
    var nFills: nat
    var lastBarTime: Option<int>
    var prevClose: Option<int>
    var journal: seq<Entry>
    var stateFile: Option<Saved>

    ghost predicate Valid()
      reads this, oms, kill
    {
      && ConfigOk(cfg)
      && oms.Valid() && kill.Valid() && (forall r :: kill.named(r))
      && venue.costs == cfg.rules.costs
      && risk.calendar == cfg.rules.cal && risk.limits == cfg.rules.limits
    }

    function Value(): Paper
      reads this, venue, oms, risk, kill
    {
      Paper(Desk(oms.Value(), venue.pending, risk.Value(), latestClose), buffers, costBasis, realizedPnl,
            kill.active, nDecisions, nFills, lastBarTime, prevClose, journal, stateFile)
    }

    /** Construction ends by restoring what the journal and the state file hold. */
    constructor (cfg: PaperConfig, journal: seq<Entry>, stateFile: Option<Saved>)
      requires ConfigOk(cfg)
      ensures Valid() && this.cfg == cfg
      ensures fresh(venue) && fresh(oms) && fresh(risk) && fresh(kill)
      ensures Value() == Restart(cfg, journal, stateFile)
    {
      this.cfg := cfg;
      venue := new SimulatedVenue(cfg.rules.costs);
      oms := new OrderManager(cfg.initialEquity);
      risk := new RiskManager(cfg.rules.cal, cfg.initialEquity, cfg.rules.limits);
      kill := new KillSwitchController((r: KillReason) => true);
      buffers := EmptyBuffers(cfg.symbols);
      latestClose, costBasis, realizedPnl := map[], map[], 0.0;
      nDecisions, nFills, lastBarTime, prevClose := 0, 0, None, None;
      this.journal, this.stateFile := [], None;
      new;
      RestoreState(journal, stateFile);
    }

    method RestoreState(events: seq<Entry>, saved: Option<Saved>)
      requires Valid() && Value() == NewPaper(cfg)
      modifies this, venue, oms
      ensures Valid() && Value() == Restart(cfg, events, saved)
    {
      hide RecallAll, ConfigOk;
      RecallJournal(events);
      journal, stateFile := events, saved;
      LoadState();
    }

    method RecallJournal(events: seq<Entry>)
      requires Valid()
      modifies this`costBasis, this`realizedPnl, this`nFills, this`nDecisions, oms
      ensures Valid() && Value() == RecallAll(old(Value()), events)
    {
      hide Recall, ConfigOk;
      ghost var p0 := Value();
      assert RecallAll(p0, events[..0]) == p0;
      for i := 0 to |events|
        invariant Valid() && Value() == RecallAll(p0, events[..i])
      {
        assert events[..i + 1][..i] == events[..i];
        RecallEntry(events[i]);
      }
      assert events[..|events|] == events;
    }

    method LoadState()
      requires Valid()
      modifies this, venue
      ensures Valid() && Value() == Loaded(old(Value()))
    {
      hide ConfigOk;
      if stateFile.Some? {
        var s := stateFile.value;
        latestClose := s.marks;
        if s.lastBarTime.Some? {
          lastBarTime := s.lastBarTime;
        }
        if s.prevClose.Some? {
          prevClose := s.prevClose;
        }
        buffers := Overlay(buffers, s.buffers);
        venue.Submit(s.pending);
      }
    }

    method RecallEntry(e: Entry)
      requires Valid()
      modifies this`costBasis, this`realizedPnl, this`nFills, this`nDecisions, oms
      ensures Valid() && Value() == Recall(old(Value()), e)
    {
      hide BasisStep, ConfigOk, Notional, Adjust;
      match e.event
      case FillEvent(_, _, _, _, _, _, _, _, _, _, _) =>
        var fill := RestoredFill(e);
        var realized := UpdateCostBasis(fill.symbol, Signed(fill.side, fill.quantity), fill.price);
        realizedPnl := realizedPnl + (realized - fill.fee);
        oms.Apply(fill);
        nFills := nFills + 1;
      case DecisionEvent(_, _, _, _) =>
        nDecisions := nDecisions + 1;
      case _ =>
    }

    method UpdateCostBasis(symbol: string, signedDelta: real, price: real) returns (realized: real)
      modifies this`costBasis
      ensures var (b, profit) := BasisStep(BasisOf(old(costBasis), symbol), signedDelta, price);
        costBasis == old(costBasis)[symbol := b] && realized == profit
    {
      hide Blend, Gain;
      var b := BasisOf(costBasis, symbol);
      var newQty := b.qty + signedDelta;
      var avg := b.avg;
      realized := 0.0;
      if Abs(b.qty) < DUST || (b.qty > 0.0) == (signedDelta > 0.0) {
        avg := Blend(b.qty, b.avg, signedDelta, price);
      } else {
        var closed := if Abs(signedDelta) < Abs(b.qty) then Abs(signedDelta) else Abs(b.qty);
        realized := Gain(closed, price, b.avg, b.qty > 0.0);
        if Abs(signedDelta) > Abs(b.qty) {
          avg := price;
        } else if Abs(newQty) < DUST {
          avg := 0.0;
        }
      }
      costBasis := costBasis[symbol := Basis(newQty, avg)];
    }

    method SettleOne(fill: Fill, wall: int)
      requires Valid()
      modifies this`costBasis, this`realizedPnl, this`nFills, this`journal, oms
      ensures Valid() && Value() == SettleFill(old(Value()), fill, wall)
    {
      hide BasisStep, ConfigOk, Notional, Adjust, KindOf, HeldValue;
      var before := QtyOf(Book(oms.symbols, oms.qty), fill.symbol);
      var profit := UpdateCostBasis(fill.symbol, Signed(fill.side, fill.quantity), fill.price);
      var realized := profit - fill.fee;
      realizedPnl := realizedPnl + realized;
      oms.Apply(fill);
      var after := QtyOf(Book(oms.symbols, oms.qty), fill.symbol);
      nFills := nFills + 1;
      var equity := oms.EquityAt(latestClose);
      journal := journal + [Entry(wall, FillEvent(KindOf(before, after), fill.symbol, fill.side, fill.quantity,
        fill.price, fill.fee, before, after, realized, realizedPnl, equity))];
    }

    method SettleMany(fills: seq<Fill>, wall: int)
      requires Valid()
      modifies this`costBasis, this`realizedPnl, this`nFills, this`journal, oms
      ensures Valid() && Value() == SettleFills(old(Value()), fills, wall)
    {
      hide SettleFill, ConfigOk;
      for i := 0 to |fills|
        invariant Valid()
        invariant SettleFills(Value(), fills[i..], wall) == SettleFills(old(Value()), fills, wall)
      {
        assert fills[i..][1..] == fills[i + 1..];
        SettleOne(fills[i], wall);
      }
      assert fills[|fills|..] == [];
    }

    method FillOpens(group: seq<Bar>, wall: int) returns (ok: bool)
      requires Valid()
      modifies this`costBasis, this`realizedPnl, this`nFills, this`journal, venue, oms
      ensures Valid() && ok == OpensPositive(group)
      ensures Value() == OpenPaper(old(Value()), cfg, group, wall)
    {
      hide OpenPaperBar, ConfigOk;
      for i := 0 to |group|
        invariant Valid() && OpensPositive(group[..i])
        invariant OpenPaper(Value(), cfg, group[i..], wall) == OpenPaper(old(Value()), cfg, group, wall)
      {
        assert group[i..][1..] == group[i + 1..];
        assert group[..i + 1] == group[..i] + [group[i]];
        var done := FillBar(group[i], wall);
        if !done {
          return false;
        }
      }
      assert group[..|group|] == group && group[|group|..] == [];
      return true;
    }

    method FillBar(b: Bar, wall: int) returns (ok: bool)
      requires Valid()
      modifies this`costBasis, this`realizedPnl, this`nFills, this`journal, venue, oms
      ensures Valid() && ok == (b.open > 0.0)
      ensures Value() == if b.open > 0.0 then OpenPaperBar(old(Value()), cfg, b, wall) else old(Value())
    {
      hide SettleFills, FillsOf, Filter, ConfigOk;
      var filled := venue.ProcessOpen(b.symbol, b.open, b.time);
      if filled.Failure? {
        return false;
      }
      SettleMany(filled.value, wall);
      return true;
    }

    method SyncDrawdownHalt(wall: int)
      requires Valid()
      modifies this`journal, kill
      ensures Valid() && Value() == SyncHalts(old(Value()), wall)
    {
      hide ConfigOk, Halted;
      var halted := Halted(risk.Value());
      TripIfNew(halted, DailyDd, wall);
      TripIfNew(halted, MonthlyDd, wall);
      TripIfNew(halted, WeeklyDd, wall);
      ClearIfReleased(halted, DailyDd, wall);
      ClearIfReleased(halted, WeeklyDd, wall);
      ClearIfReleased(halted, MonthlyDd, wall);
    }

    method TripIfNew(halted: set<Reason>, r: Reason, wall: int)
      requires Valid()
      modifies this`journal, kill
      ensures Valid() && Value() == TripReason(old(Value()), halted, r, wall)
    {
      hide ConfigOk;
      if r in halted && Drawdown(r) !in kill.active {
        var _ := kill.Trip(Drawdown(r), FromRiskManager, wall);
        journal := journal + [Entry(wall, HaltEvent(Drawdown(r)))];
      }
    }

    method ClearIfReleased(halted: set<Reason>, r: Reason, wall: int)
      requires Valid()
      modifies this`journal, kill
      ensures Valid() && Value() == ClearReason(old(Value()), halted, r, wall)
    {
      hide ConfigOk;
      if Drawdown(r) in kill.active && r !in halted {
        var _ := kill.Clear(Drawdown(r));
        journal := journal + [Entry(wall, HaltClearedEvent(Drawdown(r)))];
      }
    }

    /** A fresh source over everything buffered, with its own clock. */
    method BuildSource(now: int) returns (source: MarketReplaySource)
      requires Valid() && OneInterval()
      ensures source.Valid() && fresh(source) && fresh(source.clock)
      ensures source.Value() == PaperView(Value(), cfg, now)
    {
      hide ConfigOk, ReplaySort, SortedBy, Indexed;
      var all: seq<Bar> := [];
      for i := 0 to |cfg.symbols|
        invariant all == AllBars(cfg.symbols[..i], buffers)
        invariant forall b :: b in all ==> b.interval == cfg.interval
      {
        assert cfg.symbols[..i + 1][..i] == cfg.symbols[..i];
        assert cfg.symbols[i] in cfg.symbols;
        all := all + BufferOf(buffers, cfg.symbols[i]);
      }
      assert cfg.symbols[..|cfg.symbols|] == cfg.symbols;
      var clock := new SimClock(now);
      source := new MarketReplaySource(all, clock, cfg.interval);
    }

    method HandleOne(symbol: string, d: Decision, submitTime: int, wall: int)
      requires Valid()
      modifies this`nDecisions, this`journal, venue, oms
      ensures Valid() && Value() == HandleDecision(old(Value()), cfg, symbol, d, submitTime, wall)
    {
      hide ConfigOk, DeltaOrders, Filter, GateTargets, BookOk, IsHalted;
      nDecisions := nDecisions + 1;
      var halted := EngineHalted(Value());
      match d
      case Warmup =>
        journal := journal + [Entry(wall, DecisionEvent(symbol, d, halted, WarmingUp))];
      case Decided(_, _, _, _, qty) =>
        var allowed := risk.GateTargetList([Target(symbol, qty)]);
        if halted {
          allowed := Filter(allowed, IsFlat());
        }
        if !cfg.armed {
          journal := journal + [Entry(wall, DecisionEvent(symbol, d, halted, ObserveOnly))];
          return;
        }
        var orders := oms.ComputeDeltaOrders(allowed, submitTime);
        if orders != [] {
          venue.Submit(orders);
          journal := journal + [Entry(wall, DecisionEvent(symbol, d, halted, OrderQueued))];
        } else {
          assert old(venue.pending) + orders == old(venue.pending);
          journal := journal + [Entry(wall, DecisionEvent(symbol, d, halted, Hold))];
        }
    }

    method DecideAll(source: MarketReplaySource, group: seq<Bar>, wall: int)
      requires Valid() && source.Valid() && source !in {this as object, venue, oms, risk, kill}
      requires forall b :: b in group ==> b.symbol in cfg.bundles
      modifies this`nDecisions, this`journal, venue, oms
      ensures Valid() && Value() == DecidePaper(old(Value()), cfg, source.Value(), group, wall)
    {
      hide HandleDecision, Strategies.Decide, Indexed, SortedBy, ReplaySort;
      for i := 0 to |group|
        invariant Valid() && source.Valid()
        invariant DecidePaper(Value(), cfg, source.Value(), group[i..], wall)
               == DecidePaper(old(Value()), cfg, source.Value(), group, wall)
      {
        assert group[i..][1..] == group[i + 1..];
        assert group[i] in group;
        var snapshot := oms.SnapshotNow(latestClose);
        var d := RunDecide(cfg.bundles[group[i].symbol], group[i], source, snapshot);
        HandleOne(group[i].symbol, d, source.clock.now, wall);
      }
      assert group[|group|..] == [];
    }

    method FinishGroup(close: int, wall: int)
      requires Valid()
      modifies this`prevClose, this`stateFile, this`journal
      ensures Valid() && Value() == Finish(old(Value()), cfg, close, wall)
    {
      hide ConfigOk;
      if prevClose.Some? {
        if cfg.rules.cal.day(close) != cfg.rules.cal.day(prevClose.value) {
          journal := journal + [Entry(wall, ReportEvent(Daily))];
        }
        if cfg.rules.cal.week(close) != cfg.rules.cal.week(prevClose.value) {
          journal := journal + [Entry(wall, ReportEvent(Weekly))];
        }
      }
      prevClose := Some(close);
      stateFile := Some(Saved(lastBarTime, prevClose, latestClose, venue.pending, Trimmed(buffers, cfg)));
    }

    method ProcessBarGroup(group: seq<Bar>, wall: int) returns (ok: bool)
      requires Valid() && group != []
      requires forall b :: b in group ==> b.symbol in cfg.bundles && b.interval == cfg.interval
      requires OneInterval()
      modifies this, venue, oms, risk, kill
      ensures Valid() && OneInterval()
      ensures (Value(), ok) == ProcessGroup(old(Value()), cfg, group, wall)
    {
      hide *;
      KnownBundles(this);
      GroupPhases(Value(), cfg, group, wall);
      Arrive(group);
      // 1. bar open
      ok := FillOpens(group, wall);
      if !ok {
        return;
      }
      // 2. bar close
      var close := group[0].time + StepOf(cfg.interval);
      MarkClose(group, close, wall);
      // 3. decisions
      var source := BuildSource(close);
      DecideAll(source, group, wall);
      // 4. reports and state file
      FinishGroup(close, wall);
    }

    method Arrive(group: seq<Bar>)
      requires Valid() && OneInterval() && group != [] && forall b :: b in group ==> b.interval == cfg.interval
      modifies this`buffers, this`lastBarTime
      ensures Valid() && OneInterval() && Value() == Arrived(old(Value()), group)
    {
      hide ConfigOk, EnterBars, OneInterval;
      EnterAll(group);
      lastBarTime := Some(group[0].time);
    }

    method MarkClose(group: seq<Bar>, close: int, wall: int)
      requires Valid()
      modifies this`latestClose, this`journal, oms, risk, kill
      ensures Valid() && Value() == ClosePaper(old(Value()), cfg, group, close, wall)
    {
      hide ConfigOk, RiskUpdate, SyncHalts, MarkGroup, HeldValue;
      latestClose := RefreshMarks(latestClose, group);
      var equity := oms.EquityAt(latestClose);
      oms.Record(close, latestClose);
      risk.Update(close, equity);
      SyncDrawdownHalt(wall);
    }

    /** Every buffered bar is of the engine's interval. */
    ghost predicate OneInterval()
      reads `buffers
    {
      forall s, b :: s in cfg.symbols && b in BufferOf(buffers, s) ==> b.interval == cfg.interval
    }

    method EnterAll(group: seq<Bar>)
      requires OneInterval() && forall b :: b in group ==> b.interval == cfg.interval
      modifies this`buffers
      ensures OneInterval() && buffers == EnterBars(old(buffers), group)
    {
      for i := 0 to |group|
        invariant OneInterval()
        invariant EnterBars(buffers, group[i..]) == EnterBars(old(buffers), group)
      {
        assert group[i..][1..] == group[i + 1..];
        assert group[i] in group;
        ghost var before := buffers;
        buffers := buffers[group[i].symbol := BufferOf(buffers, group[i].symbol) + [group[i]]];
        assert forall s, b :: b in BufferOf(buffers, s) ==> b in BufferOf(before, s) || b == group[i];
      }
      assert group[|group|..] == [];
    }

    method ProcessBatchOf(batch: seq<Bar>, wall: int) returns (ok: bool)
      requires Valid() && OneInterval()
      modifies this, venue, oms, risk, kill
      ensures Valid() && OneInterval()
      ensures (Value(), ok) == ProcessBatch(old(Value()), cfg, batch, wall)
    {
      hide *;
      KnownBundles(this);
      var relevant: seq<Bar> := ReplaySort(Filter(batch, Relevant(cfg)));
      RelevantSorted(cfg, batch);
      BatchIsGroups(Value(), cfg, batch, wall);
      ghost var whole := ProcessGroups(Value(), cfg, Groups(relevant), wall);
      var i := 0;
      assert relevant[0..] == relevant;
      while i < |relevant|
        invariant 0 <= i <= |relevant| && Valid() && OneInterval()
        invariant ProcessGroups(Value(), cfg, Groups(relevant[i..]), wall) == whole
      {
        var j := i + 1;
        while j < |relevant| && relevant[j].time == relevant[i].time
          invariant i < j <= |relevant|
          invariant forall k :: i <= k < j ==> relevant[k].time == relevant[i].time
        {
          j := j + 1;
        }
        NextGroup(relevant, i, j);
        GroupsNext(Value(), cfg, relevant[i..j], Groups(relevant[j..]), wall);
        var done := ProcessBarGroup(relevant[i..j], wall);
        if !done {
          return false;
        }
        i := j;
      }
      NoGroupsLeft(relevant);
      NoGroupsToProcess(Value(), cfg, wall);
      return true;
    }

    method SeedHistory(bars: seq<Bar>, wall: int) returns (seeded: map<string, nat>)
      requires Valid()
      modifies this`buffers, this`latestClose, this`journal
      ensures Valid() && Value() == Seed(old(Value()), cfg, bars, wall)
      ensures seeded == SeedSymbols(old(Value()), cfg, cfg.symbols, bars).1
    {
      hide SeedOne, MaxLookback;
      seeded := map[];
      assert cfg.symbols[..0] == [];
      for i := 0 to |cfg.symbols|
        invariant Valid() && (Value(), seeded) == SeedSymbols(old(Value()), cfg, cfg.symbols[..i], bars)
      {
        var s := cfg.symbols[i];
        assert s in cfg.symbols && cfg.symbols[..i + 1][..i] == cfg.symbols[..i];
        var n := SeedSymbol(s, bars);
        seeded := seeded[s := n];
      }
      assert cfg.symbols[..|cfg.symbols|] == cfg.symbols;
      if exists s :: s in seeded && seeded[s] > 0 {
        journal := journal + [Entry(wall, SeedEvent(seeded))];
      }
    }

    method SeedSymbol(s: string, bars: seq<Bar>) returns (added: nat)
      requires Valid() && s in cfg.bundles
      modifies this`buffers, this`latestClose
      ensures Valid() && (Value(), added) == SeedOne(old(Value()), cfg, s, bars)
    {
      hide ConfigOk, Merge, MaxLookback, Fetched;
      var existing := BufferOf(buffers, s);
      if |existing| >= MaxLookback(cfg.bundles[s].features) {
        return 0;
      }
      var incoming := Fetched(cfg, s, bars);
      if incoming == [] {
        return 0;
      }
      var ordered := MergeBars(incoming, existing);
      added := if |ordered| > |existing| then |ordered| - |existing| else 0;
      buffers := buffers[s := ordered];
      latestClose := MarkLast(latestClose, s, ordered);
    }

    method CheckStalenessAt(now: int)
      requires Valid()
      modifies this`journal, kill
      ensures Valid() && Value() == CheckStaleness(old(Value()), cfg, now)
    {
      hide ConfigOk;
      if lastBarTime.Some? && now - lastBarTime.value > cfg.stalenessLimit && DataStaleness !in kill.active {
        var _ := kill.Trip(DataStaleness, Stale(now - lastBarTime.value, cfg.stalenessLimit), now);
        journal := journal + [Entry(now, HaltEvent(DataStaleness))];
      }
    }
  }

  lemma KnownBundles(engine: PaperTradingEngine)
    requires engine.Valid()
    ensures BundlesOk(engine.cfg.bundles)
  {
  }

  lemma RelevantSorted(cfg: PaperConfig, batch: seq<Bar>)
    ensures forall b :: b in ReplaySort(Filter(batch, Relevant(cfg))) ==> b.symbol in cfg.bundles && b.interval == cfg.interval
  {
    ReplaySortOrdered(Filter(batch, Relevant(cfg)));
    assert forall b :: b in Filter(batch, Relevant(cfg)) ==> Relevant(cfg)(b);
  }

  lemma BatchIsGroups(p: Paper, cfg: PaperConfig, batch: seq<Bar>, wall: int)
    requires BundlesOk(cfg.bundles)
    ensures ProcessBatch(p, cfg, batch, wall)
         == ProcessGroups(p, cfg, Groups(ReplaySort(Filter(batch, Relevant(cfg)))), wall)
  {
    hide ProcessGroups;
  }

  lemma GroupsNext(p: Paper, cfg: PaperConfig, g: seq<Bar>, rest: seq<seq<Bar>>, wall: int)
    requires BundlesOk(cfg.bundles) && g != [] && forall i :: 0 <= i < |rest| ==> rest[i] != []
    ensures ProcessGroups(p, cfg, [g] + rest, wall)
         == var (p', ok) := ProcessGroup(p, cfg, g, wall);
            if !ok then (p', false) else ProcessGroups(p', cfg, rest, wall)
  {
    hide ProcessGroup;
    assert ([g] + rest)[1..] == rest;
  }

  lemma NoGroupsToProcess(p: Paper, cfg: PaperConfig, wall: int)
    requires BundlesOk(cfg.bundles)
    ensures ProcessGroups(p, cfg, [], wall) == (p, true)
  {
  }
}
