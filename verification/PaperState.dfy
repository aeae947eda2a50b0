/** The paper engine as a function of its state: one bar group, one batch, a restart, a seed
    (paper/engine.py). */
module PaperState {
  import opened Collections
  import opened Market
  import opened Merging
  import opened Source
  import opened Oms
  import opened Venue
  import opened Risk
  import opened Desk
  import opened CostBasis
  import opened Accounting
  import opened Strategies

  datatype KillReason = DataStaleness | Drawdown(reason: Reason)

  datatype FillKind = Open | Exit | Reverse | Scale

  datatype Action = WarmingUp | ObserveOnly | OrderQueued | Hold

  datatype Period = Daily | Weekly

  datatype Event =
    | FillEvent(kind: FillKind, symbol: string, side: Side, quantity: real, price: real, fee: real,
                prevQty: real, newQty: real, realized: real, cumulative: real, equity: real)
    | DecisionEvent(symbolOf: string, decision: Decision, halted: bool, action: Action)
    | HaltEvent(reason: KillReason)
    | HaltClearedEvent(cleared: KillReason)
    | ReportEvent(period: Period)
    | SeedEvent(added: map<string, nat>)

  /** A journal line: the wall-clock time it was written and the event. */
  datatype Entry = Entry(wall: int, event: Event)

  /** `state.json`. */
  datatype Saved = Saved(
    lastBarTime: Option<int>, prevClose: Option<int>, marks: map<string, real>,
    pending: seq<Order>, buffers: map<string, seq<Bar>>)

  datatype Paper = Paper(
    desk: Desk, buffers: map<string, seq<Bar>>, basis: map<string, Basis>, realized: real,
    kill: set<KillReason>, nDecisions: nat, nFills: nat,
    lastBarTime: Option<int>, prevClose: Option<int>, journal: seq<Entry>, saved: Option<Saved>)

  datatype PaperConfig = PaperConfig(
    armed: bool, rules: Rules, interval: Interval, symbols: seq<string>, bundles: map<string, Bundle>,
    initialEquity: real, stalenessLimit: int)

  ghost predicate ConfigOk(cfg: PaperConfig) {
    && BundlesOk(cfg.bundles)
    && Distinct(cfg.symbols) && cfg.symbols != []
    && (forall s :: s in cfg.symbols <==> s in cfg.bundles)
    && (forall s :: s in cfg.bundles ==> cfg.bundles[s].interval == cfg.interval)
    && cfg.initialEquity > 0.0 && LimitsOk(cfg.rules.limits)
    && cfg.rules.costs.feeBps >= 0.0 && cfg.rules.costs.slippageBps >= 0.0
  }

  function BufferOf(buffers: map<string, seq<Bar>>, s: string): seq<Bar> {
    if s in buffers then buffers[s] else []
  }

  function EmptyBuffers(symbols: seq<string>): (m: map<string, seq<Bar>>)
    ensures forall s :: s in m <==> s in symbols
  {
    map s | s in symbols :: []
  }

  function NewPaper(cfg: PaperConfig): Paper {
    Paper(NewDesk(cfg.initialEquity, NewRisk(cfg.initialEquity)), EmptyBuffers(cfg.symbols), map[], 0.0,
          {}, 0, 0, None, None, [], None)
  }

  function Log(p: Paper, wall: int, e: Event): Paper {
    p.(journal := p.journal + [Entry(wall, e)])
  }

  // ------------------------------------------------------------- fills

  predicate Opposite(a: real, b: real) {
    a * b < 0.0
  }

  function KindOf(prevQty: real, newQty: real): FillKind {
    if Abs(prevQty) < DUST && Abs(newQty) > DUST then Open
    else if Abs(prevQty) > DUST && Abs(newQty) < DUST then Exit
    else if Opposite(prevQty, newQty) then Reverse
    else Scale
  }

  function BooksOf(p: Paper): Books {
    Books(p.desk.account, p.basis, p.realized)
  }

  function SettleFill(p: Paper, f: Fill, wall: int): Paper {
    var k := Settle(BooksOf(p), f);
    var prevQty, newQty := QtyOf(p.desk.account.book, f.symbol), QtyOf(k.account.book, f.symbol);
    var p' := p.(desk := p.desk.(account := k.account), basis := k.basis, realized := k.realized, nFills := p.nFills + 1);
    Log(p', wall, FillEvent(KindOf(prevQty, newQty), f.symbol, f.side, f.quantity, f.price, f.fee, prevQty, newQty,
                            k.realized - p.realized, k.realized, Equity(k.account, p.desk.marks)))
  }

  function SettleFills(p: Paper, fills: seq<Fill>, wall: int): Paper
    decreases |fills|
  {
    if fills == [] then p else SettleFills(SettleFill(p, fills[0], wall), fills[1..], wall)
  }

  function OpenPaperBar(p: Paper, cfg: PaperConfig, b: Bar, wall: int): Paper {
    var fills := FillsOf(cfg.rules.costs, Filter(p.desk.pending, OrderFor(b.symbol)), b.open, b.time);
    SettleFills(p.(desk := p.desk.(pending := Filter(p.desk.pending, OrderNotFor(b.symbol)))), fills, wall)
  }

  /** Phase 1; a non-positive open raises there and leaves later bars unprocessed. */
  function OpenPaper(p: Paper, cfg: PaperConfig, group: seq<Bar>, wall: int): Paper
    decreases |group|
  {
    if group == [] || group[0].open <= 0.0 then p
    else OpenPaper(OpenPaperBar(p, cfg, group[0], wall), cfg, group[1..], wall)
  }

  // ------------------------------------------------------------- close and halts

  function KillOf(halted: set<Reason>): set<KillReason> {
    set r | r in halted :: Drawdown(r)
  }

  function TripReason(p: Paper, halted: set<Reason>, r: Reason, wall: int): Paper {
    if r in halted && Drawdown(r) !in p.kill
    then Log(p.(kill := p.kill + {Drawdown(r)}), wall, HaltEvent(Drawdown(r)))
    else p
  }

  function ClearReason(p: Paper, halted: set<Reason>, r: Reason, wall: int): Paper {
    if Drawdown(r) in p.kill && r !in halted
    then Log(p.(kill := p.kill - {Drawdown(r)}), wall, HaltClearedEvent(Drawdown(r)))
    else p
  }

  /** Mirrors the risk manager's halts into the kill switch: new ones in name order, then the
      released ones. */
  function SyncHalts(p: Paper, wall: int): Paper {
    var h := Halted(p.desk.risk);
    var p1 := TripReason(TripReason(TripReason(p, h, DailyDd, wall), h, MonthlyDd, wall), h, WeeklyDd, wall);
    ClearReason(ClearReason(ClearReason(p1, h, DailyDd, wall), h, WeeklyDd, wall), h, MonthlyDd, wall)
  }

  // ------------------------------------------------------------- decisions

  predicate EngineHalted(p: Paper) {
    p.kill != {} || IsHalted(p.desk.risk)
  }

  /** Gate of one decided target: the risk manager's, and flat only while anything halts. */
  function AllowedTargets(p: Paper, t: Target): seq<Target> {
    var allowed := GateTargets(p.desk.risk, [t]);
    if EngineHalted(p) then Filter(allowed, IsFlat()) else allowed
  }

  function HandleDecision(p: Paper, cfg: PaperConfig, symbol: string, d: Decision, submitTime: int, wall: int): Paper {
    var halted := EngineHalted(p);
    var p' := p.(nDecisions := p.nDecisions + 1);
    match d
    case Warmup => Log(p', wall, DecisionEvent(symbol, d, halted, WarmingUp))
    case Decided(_, _, _, _, qty) =>
      if !cfg.armed then Log(p', wall, DecisionEvent(symbol, d, halted, ObserveOnly))
      else
        var allowed := AllowedTargets(p, Target(symbol, qty));
        var desk := QueueTargets(p.desk, allowed, submitTime);
        Log(p'.(desk := desk), wall,
            DecisionEvent(symbol, d, halted, if |desk.pending| > |p.desk.pending| then OrderQueued else Hold))
  }

  function DecidePaperBar(p: Paper, cfg: PaperConfig, view: View, b: Bar, wall: int): Paper
    requires BundlesOk(cfg.bundles)
  {
    if b.symbol !in cfg.bundles then p
    else
      var d := Decide(cfg.bundles[b.symbol], b, view, TakeSnapshot(p.desk.account, p.desk.marks));
      HandleDecision(p, cfg, b.symbol, d, view.now, wall)
  }

  function DecidePaper(p: Paper, cfg: PaperConfig, view: View, group: seq<Bar>, wall: int): Paper
    requires BundlesOk(cfg.bundles)
    decreases |group|
  {
    if group == [] then p
    else DecidePaper(DecidePaperBar(p, cfg, view, group[0], wall), cfg, view, group[1..], wall)
  }

  // ------------------------------------------------------------- one group

  function EnterBars(buffers: map<string, seq<Bar>>, group: seq<Bar>): map<string, seq<Bar>>
    decreases |group|
  {
    if group == [] then buffers
    else
      var b := group[0];
      EnterBars(buffers[b.symbol := BufferOf(buffers, b.symbol) + [b]], group[1..])
  }

  /** All buffered bars, buffer by buffer in the order the bundles were given. */
  function AllBars(symbols: seq<string>, buffers: map<string, seq<Bar>>): seq<Bar> {
    if symbols == [] then []
    else AllBars(symbols[..|symbols| - 1], buffers) + BufferOf(buffers, symbols[|symbols| - 1])
  }

  /** The source the engine builds afresh for each group. */
  function PaperView(p: Paper, cfg: PaperConfig, now: int): View {
    View(ReplaySort(AllBars(cfg.symbols, p.buffers)), now)
  }

  function MaxLookback(features: seq<Feature>): nat {
    if features == [] then 0
    else
      var m, l := MaxLookback(features[..|features| - 1]), features[|features| - 1].lookback;
      if l > m then l else m
  }

  function Keep(cfg: PaperConfig, s: string): nat
    requires s in cfg.bundles
  {
    MaxLookback(cfg.bundles[s].features) + 5
  }

  function Trimmed(buffers: map<string, seq<Bar>>, cfg: PaperConfig): map<string, seq<Bar>> {
    map s | s in cfg.bundles :: LastN(BufferOf(buffers, s), Keep(cfg, s))
  }

  function StateFile(p: Paper, cfg: PaperConfig): Saved {
    Saved(p.lastBarTime, p.prevClose, p.desk.marks, p.desk.pending, Trimmed(p.buffers, cfg))
  }

  function Reports(p: Paper, cal: Calendar, close: int, wall: int): Paper {
    if p.prevClose.None? then p
    else
      var prev := p.prevClose.value;
      var p1 := if cal.day(close) != cal.day(prev) then Log(p, wall, ReportEvent(Daily)) else p;
      if cal.week(close) != cal.week(prev) then Log(p1, wall, ReportEvent(Weekly)) else p1
  }

  function Finish(p: Paper, cfg: PaperConfig, close: int, wall: int): Paper {
    var p1 := Reports(p, cfg.rules.cal, close, wall).(prevClose := Some(close));
    p1.(saved := Some(StateFile(p1, cfg)))
  }

  function ClosePaper(p: Paper, cfg: PaperConfig, group: seq<Bar>, close: int, wall: int): Paper {
    SyncHalts(p.(desk := CloseGroup(p.desk, cfg.rules, group, close)), wall)
  }

  /** Buffers and the last bar time move before anything can fail. */
  function Arrived(p: Paper, group: seq<Bar>): Paper
    requires group != []
  {
    p.(buffers := EnterBars(p.buffers, group), lastBarTime := Some(group[0].time))
  }

  /** State just before the decisions of a group whose opens are all positive. */
  function MarkedPaper(p: Paper, cfg: PaperConfig, group: seq<Bar>, wall: int): Paper
    requires group != []
  {
    ClosePaper(OpenPaper(Arrived(p, group), cfg, group, wall), cfg, group, group[0].time + StepOf(cfg.interval), wall)
  }

  /** The new state, and whether the group completed rather than raised. */
  function ProcessGroup(p: Paper, cfg: PaperConfig, group: seq<Bar>, wall: int): (Paper, bool)
    requires group != [] && BundlesOk(cfg.bundles)
  {
    var close := group[0].time + StepOf(cfg.interval);
    if !OpensPositive(group) then (OpenPaper(Arrived(p, group), cfg, group, wall), false)
    else
      var marked := MarkedPaper(p, cfg, group, wall);
      (Finish(DecidePaper(marked, cfg, PaperView(marked, cfg, close), group, wall), cfg, close, wall), true)
  }

  /** One group, phase by phase. */
  lemma GroupPhases(p: Paper, cfg: PaperConfig, group: seq<Bar>, wall: int)
    requires group != [] && BundlesOk(cfg.bundles)
    ensures var filled := OpenPaper(Arrived(p, group), cfg, group, wall);
      var close := group[0].time + StepOf(cfg.interval);
      var marked := ClosePaper(filled, cfg, group, close, wall);
      ProcessGroup(p, cfg, group, wall)
      == if !OpensPositive(group) then (filled, false)
         else (Finish(DecidePaper(marked, cfg, PaperView(marked, cfg, close), group, wall), cfg, close, wall), true)
  {
    hide OpenPaper, DecidePaper, Finish, ClosePaper, PaperView, Arrived;
  }

  function ProcessGroups(p: Paper, cfg: PaperConfig, groups: seq<seq<Bar>>, wall: int): (Paper, bool)
    requires BundlesOk(cfg.bundles) && forall i :: 0 <= i < |groups| ==> groups[i] != []
    decreases |groups|
  {
    if groups == [] then (p, true)
    else
      var (p', ok) := ProcessGroup(p, cfg, groups[0], wall);
      if !ok then (p', false) else ProcessGroups(p', cfg, groups[1..], wall)
  }

  function Relevant(cfg: PaperConfig): Bar -> bool {
    (b: Bar) => b.symbol in cfg.bundles && b.interval == cfg.interval
  }

  /** A batch: foreign bars dropped, the rest sorted, grouped and processed in order. */
  function ProcessBatch(p: Paper, cfg: PaperConfig, batch: seq<Bar>, wall: int): (Paper, bool)
    requires BundlesOk(cfg.bundles)
  {
    ProcessGroups(p, cfg, Groups(ReplaySort(Filter(batch, Relevant(cfg)))), wall)
  }

  // ------------------------------------------------------------- staleness

  function CheckStaleness(p: Paper, cfg: PaperConfig, now: int): Paper {
    if p.lastBarTime.None? || now - p.lastBarTime.value <= cfg.stalenessLimit || DataStaleness in p.kill then p
    else Log(p.(kill := p.kill + {DataStaleness}), now, HaltEvent(DataStaleness))
  }

  // ------------------------------------------------------------- restart

  /** A fill as the journal gives it back: no order id, and the line's own time. */
  function RestoredFill(e: Entry): Fill
    requires e.event.FillEvent?
  {
    var f := e.event;
    Fill(EmptyId, f.symbol, f.side, f.quantity, f.price, f.fee, e.wall)
  }

  /** One journal line at restart: only fills and decisions count. */
  function Recall(p: Paper, e: Entry): Paper {
    match e.event
    case FillEvent(_, _, _, _, _, _, _, _, _, _, _) =>
      var k := Settle(BooksOf(p), RestoredFill(e));
      p.(desk := p.desk.(account := k.account), basis := k.basis, realized := k.realized, nFills := p.nFills + 1)
    case DecisionEvent(_, _, _, _) => p.(nDecisions := p.nDecisions + 1)
    case _ => p
  }

  function RecallAll(p: Paper, journal: seq<Entry>): Paper {
    if journal == [] then p
    else Recall(RecallAll(p, journal[..|journal| - 1]), journal[|journal| - 1])
  }

  /** Saved buffers of known symbols replace the engine's own. */
  function Overlay(own: map<string, seq<Bar>>, other: map<string, seq<Bar>>): map<string, seq<Bar>> {
    map x | x in own :: if x in other then other[x] else own[x]
  }

  /** The state file laid over what the journal gave. */
  function Loaded(p: Paper): Paper {
    match p.saved
    case None => p
    case Some(s) =>
      p.(desk := p.desk.(marks := s.marks, pending := p.desk.pending + s.pending),
         lastBarTime := if s.lastBarTime.Some? then s.lastBarTime else p.lastBarTime,
         prevClose := if s.prevClose.Some? then s.prevClose else p.prevClose,
         buffers := Overlay(p.buffers, s.buffers))
  }

  /** A new engine over an existing journal and state file. */
  function Restart(cfg: PaperConfig, journal: seq<Entry>, saved: Option<Saved>): Paper {
    Loaded(RecallAll(NewPaper(cfg), journal).(journal := journal, saved := saved))
  }

  // ------------------------------------------------------------- a crash inside a group

  /** Where the process can die inside a group, as far as journal and state file can tell: with the
      first bars opened, with some fills of the next bar settled, or with the first bars decided
      (all of them: anywhere up to the writing of the state file). */
  datatype CrashPoint = Opening(bars: nat) | Filling(bars: nat, fills: nat) | Deciding(bars: nat)

  function OpenedTo(p: Paper, cfg: PaperConfig, group: seq<Bar>, n: nat, wall: int): Paper
    requires group != [] && n <= |group|
  {
    OpenPaper(Arrived(p, group), cfg, group[..n], wall)
  }

  /** The orders the next bar takes from the queue, all at once, before the first is settled. */
  function Hits(p: Paper, cfg: PaperConfig, group: seq<Bar>, n: nat, wall: int): seq<Order>
    requires n < |group|
  {
    Filter(OpenedTo(p, cfg, group, n, wall).desk.pending, OrderFor(group[n].symbol))
  }

  predicate Reached(p: Paper, cfg: PaperConfig, group: seq<Bar>, wall: int, at: CrashPoint)
    requires group != []
  {
    match at
    case Opening(n) => n <= |group| && OpensPositive(group[..n])
    case Filling(n, k) => n < |group| && OpensPositive(group[..n + 1]) && 0 < k <= |Hits(p, cfg, group, n, wall)|
    case Deciding(n) => n <= |group| && OpensPositive(group)
  }

  /** The engine at the moment it dies. */
  function CrashedAt(p: Paper, cfg: PaperConfig, group: seq<Bar>, wall: int, at: CrashPoint): Paper
    requires group != [] && BundlesOk(cfg.bundles) && Reached(p, cfg, group, wall, at)
  {
    match at
    case Opening(n) => OpenedTo(p, cfg, group, n, wall)
    case Filling(n, k) =>
      var before := OpenedTo(p, cfg, group, n, wall);
      var fills := FillsOf(cfg.rules.costs, Hits(p, cfg, group, n, wall), group[n].open, group[n].time);
      SettleFills(before.(desk := before.desk.(pending := Filter(before.desk.pending, OrderNotFor(group[n].symbol)))),
                  fills[..k], wall)
    case Deciding(n) =>
      var marked := MarkedPaper(p, cfg, group, wall);
      DecidePaper(marked, cfg, PaperView(marked, cfg, group[0].time + StepOf(cfg.interval)), group[..n], wall)
  }

  // ------------------------------------------------------------- seeding

  predicate Enough(p: Paper, cfg: PaperConfig, s: string)
    requires s in cfg.bundles
  {
    |BufferOf(p.buffers, s)| >= MaxLookback(cfg.bundles[s].features)
  }

  function Fetched(cfg: PaperConfig, s: string, bars: seq<Bar>): seq<Bar> {
    Filter(Filter(bars, Relevant(cfg)), BySymbol(s))
  }

  /** One symbol: skipped with enough history or nothing fetched. */
  function SeedOne(p: Paper, cfg: PaperConfig, s: string, bars: seq<Bar>): (Paper, nat)
    requires s in cfg.bundles
  {
    var incoming := Fetched(cfg, s, bars);
    if Enough(p, cfg, s) || incoming == [] then (p, 0)
    else
      var existing := BufferOf(p.buffers, s);
      var ordered := Merge(incoming, existing);
      (p.(buffers := p.buffers[s := ordered],
          desk := p.desk.(marks := MarkLast(p.desk.marks, s, ordered))),
       if |ordered| > |existing| then |ordered| - |existing| else 0)
  }

  function MarkLast(marks: map<string, real>, s: string, ordered: seq<Bar>): map<string, real> {
    if ordered == [] then marks else marks[s := ordered[|ordered| - 1].close]
  }

  function SeedSymbols(p: Paper, cfg: PaperConfig, symbols: seq<string>, bars: seq<Bar>): (Paper, map<string, nat>)
    requires forall s :: s in symbols ==> s in cfg.bundles
  {
    if symbols == [] then (p, map[])
    else
      var n := |symbols| - 1;
      var (q, added) := SeedSymbols(p, cfg, symbols[..n], bars);
      var (q', k) := SeedOne(q, cfg, symbols[n], bars);
      (q', added[symbols[n] := k])
  }

  predicate AnyAdded(added: map<string, nat>) {
    exists s :: s in added && added[s] > 0
  }

  function Seed(p: Paper, cfg: PaperConfig, bars: seq<Bar>, wall: int): Paper
    requires forall s :: s in cfg.symbols ==> s in cfg.bundles
  {
    var (q, added) := SeedSymbols(p, cfg, cfg.symbols, bars);
    if AnyAdded(added) then Log(q, wall, SeedEvent(added)) else q
  }
}
