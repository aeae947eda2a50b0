/** One small life of the paper engine, and the states it reaches that its documentation rules out:
    an order lost and an order filled twice by a crash, a position opened under a staleness halt, a
    fill with the master switch off. */
module PaperExamples {
  import opened Collections
  import opened Market
  import opened Timeline
  import opened Source
  import opened Oms
  import opened Venue
  import opened Risk
  import opened Desk
  import opened Commitment
  import opened Tracking
  import opened Rebalancing
  import opened Strategies
  import opened PaperState
  import opened PaperRefinement
  import opened PaperRecovery
  import opened PaperHalts
  import opened PaperOrders
  import opened PaperCurve
  import opened PaperCrash
  import opened PaperResume
  import opened PaperRedelivery

  /** Wants to be long with everything, as soon as it has seen two bars. */
  function Eager(): Bundle {
    Bundle("B", Min1, Directional,
           [Feature("second", 2, 0, (h: seq<Bar>) => if |h| < 2 then None else Some(1.0))],
           (fv: map<string, real>) => Probs(0.0, 0.0, 1.0), None, 0.75, 1.0, false)
  }

  function EagerConfig(armed: bool): (cfg: PaperConfig)
    ensures cfg.interval.Min1? && "B" in cfg.bundles && cfg.armed == armed
  {
    PaperConfig(armed,
                Rules(Costs(0.0, 0.0), Calendar((t: int) => 0, (t: int) => 0, (t: int) => 0), Limits(0.25, 0.5, 0.75)),
                Min1, ["B"], map["B" := Eager()], 100.0, 60)
  }

  lemma EagerConfigOk(armed: bool)
    ensures ConfigOk(EagerConfig(armed)) && KnownBundles(EagerConfig(armed))
  {
    var cfg := EagerConfig(armed);
    assert cfg.bundles["B"] == Eager() && Eager().features[0].lookback == 2;
    assert BundleOk(Eager());
  }

  /** Never traded, nothing queued, and these bars seen. */
  predicate Waiting(p: Paper, seen: seq<Bar>) {
    Untouched(p.desk) && p.desk.pending == [] && p.kill == {} && BufferOf(p.buffers, "B") == seen
  }

  predicate Seen(seen: seq<Bar>, t: int) {
    TimeOrdered(seen) && forall b :: b in seen ==> b.symbol == "B" && b.interval.Min1? && b.time <= t
  }

  /** The close of one more bar finds the engine as it was. */
  lemma QuietMark(p: Paper, cfg: PaperConfig, seen: seq<Bar>, t: int, wall: int)
    requires cfg.rules.limits == Limits(0.25, 0.5, 0.75) && Waiting(p, seen)
    ensures var m := MarkedPaper(p, cfg, [FlatBar("B", t)], wall);
      Waiting(m, seen + [FlatBar("B", t)]) && !EngineHalted(m)
  {
    hide SyncHalts, CloseGroup, Filter;
    var g := [FlatBar("B", t)];
    NothingToOpen(Arrived(p, g), cfg, g, wall);
    QuietClose(p.desk, cfg.rules, g, t + StepOf(cfg.interval));
    SyncMirrorsRisk(Arrived(p, g).(desk := CloseGroup(p.desk, cfg.rules, g, t + StepOf(cfg.interval))), wall);
    var m := MarkedPaper(p, cfg, g, wall);
    forall k ensures k !in m.kill {
      match k case DataStaleness => case Drawdown(r) =>
    }
    EnterBarsAppends(p.buffers, g, "B");
    FilterAll(g, BySymbol("B"));
  }

  /** With one bar seen the engine waits; with two it wants all its equity in B. */
  lemma EagerDecides(m: Paper, armed: bool, seen: seq<Bar>, t: int)
    requires Untouched(m.desk) && BufferOf(m.buffers, "B") == seen && Seen(seen, t)
    ensures var cfg := EagerConfig(armed);
      KnownBundles(cfg) && var d := RawDecision(m, cfg, PaperView(m, cfg, t + 1), FlatBar("B", t));
      if |seen| < 2 then d.Warmup? else d.Decided? && d.targetQty == 100.0
  {
    var cfg := EagerConfig(armed);
    EagerConfigOk(armed);
    hide History, PaperView, LastN;
    var view := PaperView(m, cfg, t + 1);
    assert cfg.symbols == ["B"] && BuffersOk(m.buffers, cfg, t);
    HistoryIsTail(m, cfg, t, "B", 2);
    TwoBars(seen);
    OneFeature(Eager(), view);
  }

  lemma TwoBars(seen: seq<Bar>)
    ensures |LastN(seen, 2)| < 2 <==> |seen| < 2
  {
  }

  lemma OneFeature(u: Bundle, view: View)
    requires u == Eager()
    ensures FeatureVector(u.features, "B", Min1, view)
         == if |History(view, "B", Min1, 2)| < 2 then None else Some(map["second" := 1.0])
  {
    hide History;
    assert u.features[..0] == [];
    VectorOfNone("B", Min1, view);
    assert u.features[..0 + 1] == u.features;
    VectorNext(u.features, 0, "B", Min1, view);
  }

  // ------------------------------------------------------------- two bars into its life

  function Bars(t: int): (g: seq<Bar>)
    ensures g != []
  {
    [FlatBar("B", t)]
  }

  function Days(n: nat): seq<Stimulus> {
    if n == 0 then [] else Days(n - 1) + [Batch(Bars(n - 1), 0)]
  }

  /** The armed engine after its first `n` bars, one a minute. */
  function Eagerly(n: nat): Paper
    requires KnownBundles(EagerConfig(true))
  {
    Life(EagerConfig(true), Days(n))
  }

  lemma NextDay(n: nat)
    requires KnownBundles(EagerConfig(true))
    ensures Eagerly(n + 1) == ProcessGroup(Eagerly(n), EagerConfig(true), Bars(n), 0).0
  {
    hide ProcessBatch, ProcessGroup;
    var days := Days(n + 1);
    assert days[..|days| - 1] == Days(n);
    SymbolLeqTotal("B", "B");
    BatchOfGroup(Eagerly(n), EagerConfig(true), Bars(n), 0);
  }

  /** One bar alone decides nothing: the engine goes on waiting. */
  lemma WarmupGroup(p: Paper, armed: bool, t: int, wall: int)
    requires Waiting(p, []) && KnownBundles(EagerConfig(armed))
    ensures Waiting(ProcessGroup(p, EagerConfig(armed), Bars(t), wall).0, Bars(t))
  {
    hide MarkedPaper, DecidePaper, PaperView, Finish, RawDecision, Waiting, ProcessGroup, BundlesOk, SameStanding, EagerConfig, Bars;
    var cfg := EagerConfig(armed);
    var m := MarkedPaper(p, cfg, Bars(t), wall);
    MarkOfFirst(p, armed, t, wall);
    var d := DecidePaper(m, cfg, PaperView(m, cfg, t + 1), Bars(t), wall);
    NoDecision(m, cfg, PaperView(m, cfg, t + 1), t, wall);
    FinishKeeps(d, cfg, t + 1, wall);
    DecisionsReach(m, cfg, PaperView(m, cfg, t + 1), Bars(t), wall);
    DecideKeepsBuffers(m, cfg, PaperView(m, cfg, t + 1), Bars(t), wall);
    StillWaiting(m, d, Bars(t));
    StillWaiting(d, Finish(d, cfg, t + 1, wall), Bars(t));
    GroupOf(p, cfg, t, wall);
  }

  lemma MarkOfFirst(p: Paper, armed: bool, t: int, wall: int)
    requires Waiting(p, []) && KnownBundles(EagerConfig(armed))
    ensures var cfg := EagerConfig(armed);
      var m := MarkedPaper(p, cfg, Bars(t), wall);
      Waiting(m, Bars(t)) && RawDecision(m, cfg, PaperView(m, cfg, t + 1), FlatBar("B", t)).Warmup?
  {
    hide MarkedPaper, PaperView, RawDecision;
    QuietMark(p, EagerConfig(armed), [], t, wall);
    assert [] + Bars(t) == Bars(t);
    EagerDecides(MarkedPaper(p, EagerConfig(armed), Bars(t), wall), armed, Bars(t), t);
  }

  lemma StillWaiting(p: Paper, q: Paper, seen: seq<Bar>)
    requires Waiting(p, seen) && q.desk == p.desk && q.kill == p.kill && q.buffers == p.buffers
    ensures Waiting(q, seen)
  {
  }

  lemma GroupOf(p: Paper, cfg: PaperConfig, t: int, wall: int)
    requires BundlesOk(cfg.bundles) && cfg.interval.Min1?
    ensures var m := MarkedPaper(p, cfg, Bars(t), wall);
      ProcessGroup(p, cfg, Bars(t), wall)
      == (Finish(DecidePaper(m, cfg, PaperView(m, cfg, t + 1), Bars(t), wall), cfg, t + 1, wall), true)
  {
    hide OpenPaper, DecidePaper, Finish, ClosePaper, PaperView, Arrived;
  }

  lemma NoDecision(m: Paper, cfg: PaperConfig, view: View, t: int, wall: int)
    requires BundlesOk(cfg.bundles) && "B" in cfg.bundles && RawDecision(m, cfg, view, FlatBar("B", t)).Warmup?
    ensures DecidePaper(m, cfg, view, Bars(t), wall).desk == m.desk
  {
    hide Strategies.Decide;
    var b := FlatBar("B", t);
    assert [b][1..] == [];
    assert DecidePaper(m, cfg, view, [b], wall) == DecidePaperBar(m, cfg, view, b, wall);
  }

  lemma NotYetBorn()
    ensures KnownBundles(EagerConfig(true)) && Waiting(Eagerly(0), [])
  {
    EagerConfigOk(true);
    hide BundlesOk;
  }

  lemma FirstDay()
    ensures KnownBundles(EagerConfig(true)) && ConfigOk(EagerConfig(true))
    ensures var p := Eagerly(1);
      && Waiting(p, Bars(0)) && p.saved == Some(StateFile(p, EagerConfig(true)))
      && p.lastBarTime == Some(0) && p.prevClose == Some(1)
  {
    hide ProcessGroup, StateFile, Waiting, Eagerly, BundlesOk;
    EagerConfigOk(true);
    NotYetBorn();
    NextDay(0);
    WarmupGroup(Eagerly(0), true, 0, 0);
    GroupEndsAtBoundary(Eagerly(0), EagerConfig(true), Bars(0), 0);
  }

  /** The close of the second bar, at which an armed engine orders 100 of B. */
  lemma MarkOfSecond(armed: bool)
    ensures KnownBundles(EagerConfig(true)) && KnownBundles(EagerConfig(armed))
    ensures var cfg := EagerConfig(armed);
      var m := MarkedPaper(Eagerly(1), EagerConfig(true), Bars(1), 0);
      var d := RawDecision(m, cfg, PaperView(m, cfg, 2), FlatBar("B", 1));
      && Untouched(m.desk) && m.desk.pending == [] && m.kill == {} && !EngineHalted(m)
      && d.Decided? && d.targetQty == 100.0
  {
    hide MarkedPaper, PaperView, RawDecision, Untouched, Eagerly, EngineHalted;
    FirstDay();
    EagerConfigOk(armed);
    QuietMark(Eagerly(1), EagerConfig(true), Bars(0), 1, 0);
    EagerDecides(MarkedPaper(Eagerly(1), EagerConfig(true), Bars(1), 0), armed, Bars(0) + Bars(1), 1);
  }

  /** An order for all the equity, in a desk that never traded. */
  predicate OneBuy(d: Desk) {
    && |d.pending| == 1 && d.pending[0].symbol == "B" && d.pending[0].submitTime == 2
    && Held(d, "B") == 0.0 && Committed(d, "B") == 100.0
  }

  lemma BuyQueued(d: Desk)
    requires Untouched(d) && d.pending == []
    ensures OneBuy(QueueTargets(d, [Target("B", 100.0)], 2))
  {
    var t := Target("B", 100.0);
    OneOrder(d, t, 2);
    SingleDeltaOrder(d.account.book, t, 2, d.account.orderSeq);
    assert [] + DeltaOrders(d.account.book, [t], 2, d.account.orderSeq) == DeltaOrders(d.account.book, [t], 2, d.account.orderSeq);
    QueueCommits(d, [t], 2, "B");
    assert [t][1..] == [];
  }

  lemma SecondDecision(m: Paper, cfg: PaperConfig, view: View, wall: int)
    requires BundlesOk(cfg.bundles) && "B" in cfg.bundles && cfg.armed && view.now == 2
    requires Untouched(m.desk) && m.desk.pending == [] && !EngineHalted(m)
    requires RawDecision(m, cfg, view, FlatBar("B", 1)).Decided? && RawDecision(m, cfg, view, FlatBar("B", 1)).targetQty == 100.0
    ensures OneBuy(DecidePaper(m, cfg, view, Bars(1), wall).desk)
  {
    hide Strategies.Decide, EngineHalted, OneBuy, AllowedTargets, QueueTargets;
    var b := FlatBar("B", 1);
    assert [b][1..] == [];
    assert DecidePaper(m, cfg, view, [b], wall) == DecidePaperBar(m, cfg, view, b, wall);
    PassedTargets(m, Target("B", 100.0));
    BuyQueued(m.desk);
  }

  lemma SecondDay()
    ensures KnownBundles(EagerConfig(true)) && ConfigOk(EagerConfig(true))
    ensures var p := Eagerly(2);
      && OneBuy(p.desk) && p.kill == {} && p.saved == Some(StateFile(p, EagerConfig(true)))
      && p.lastBarTime == Some(1) && p.prevClose == Some(2)
  {
    hide ProcessGroup, StateFile, Waiting, Eagerly, BundlesOk, MarkedPaper, PaperView, RawDecision, Untouched, OneBuy, EngineHalted, DecidePaper, Finish;
    var cfg := EagerConfig(true);
    FirstDay();
    NextDay(1);
    MarkOfSecond(true);
    var m := MarkedPaper(Eagerly(1), cfg, Bars(1), 0);
    ViewClock(m, cfg, 2);
    SecondDecision(m, cfg, PaperView(m, cfg, 2), 0);
    var d := DecidePaper(m, cfg, PaperView(m, cfg, 2), Bars(1), 0);
    DecisionsReach(m, cfg, PaperView(m, cfg, 2), Bars(1), 0);
    FinishKeeps(d, cfg, 2, 0);
    GroupOf(Eagerly(1), cfg, 1, 0);
    GroupEndsAtBoundary(Eagerly(1), cfg, Bars(1), 0);
  }

  // ------------------------------------------------------------- what the documentation rules out

  /** Killed after its decision and before the state file is written, the engine comes back without
      the order it had queued, though nothing has filled. */
  lemma LostOrder()
    ensures KnownBundles(EagerConfig(true))
    ensures var cfg := EagerConfig(true); var p := Eagerly(1);
      && Reached(p, cfg, Bars(1), 0, Deciding(1))
      && OneBuy(CrashedAt(p, cfg, Bars(1), 0, Deciding(1)).desk)
      && AfterCrash(p, cfg, Bars(1), 0, Deciding(1)).desk.pending == []
  {
    hide StateFile, Eagerly, BundlesOk, MarkedPaper, PaperView, RawDecision, Untouched, OneBuy, EngineHalted, DecidePaper, AfterCrash;
    var cfg := EagerConfig(true);
    FirstDay();
    var p := Eagerly(1);
    MarkOfSecond(true);
    var m := MarkedPaper(p, cfg, Bars(1), 0);
    ViewClock(m, cfg, 2);
    SecondDecision(m, cfg, PaperView(m, cfg, 2), 0);
    assert Bars(1)[..1] == Bars(1);
    JournalTellsAll(cfg, Days(1));
    Remembers(1);
    hide CrashedAt, Days;
    BoundaryQueueSaved(p, cfg);
    CrashInsideGroup(p, cfg, Bars(1), 0, Deciding(1));
  }

  lemma Remembers(n: nat)
    requires KnownBundles(EagerConfig(true))
    ensures Eagerly(n) == Life(EagerConfig(true), Days(n))
  {
  }

  /** Killed once its order has filled, the engine comes back holding 100 with the order queued
      again: the next bar makes it 200. */
  lemma OrderFilledTwice()
    ensures KnownBundles(EagerConfig(true))
    ensures var cfg := EagerConfig(true); var p := Eagerly(2);
      && Reached(p, cfg, Bars(2), 0, Opening(1))
      && Held(CrashedAt(p, cfg, Bars(2), 0, Opening(1)).desk, "B") == 100.0
      && Held(AfterCrash(p, cfg, Bars(2), 0, Opening(1)).desk, "B") == 100.0
      && Committed(AfterCrash(p, cfg, Bars(2), 0, Opening(1)).desk, "B") == 200.0
  {
    hide StateFile, Eagerly, BundlesOk, AfterCrash, OpenPaper, OpenGroup, EnterBars, Days;
    var cfg := EagerConfig(true);
    SecondDay();
    var p := Eagerly(2);
    JournalTellsAll(cfg, Days(2));
    Remembers(2);
    assert Bars(2)[..1] == Bars(2);
    OpenPaperDesk(Arrived(p, Bars(2)), cfg, Bars(2), 0);
    OpenSettles(p.desk, cfg.rules.costs, Bars(2), "B");
    assert Bars(2)[0].symbol == "B";
    BoundaryQueueSaved(p, cfg);
    CrashInsideGroup(p, cfg, Bars(2), 0, Opening(1));
  }

  lemma FirstBoundary()
    ensures KnownBundles(EagerConfig(true)) && ConfigOk(EagerConfig(true))
    ensures AtBoundary(Eagerly(1), EagerConfig(true), 0) && Eagerly(1).desk.pending == []
  {
    hide StateFile, Eagerly, BundlesOk, Days, FollowsCurve, Journalled, Untouched;
    FirstDay();
    Remembers(1);
    JournalTellsAll(EagerConfig(true), Days(1));
    LifeFollows(EagerConfig(true), Days(1));
  }

  /** Delivered the interrupted bar again, the engine of `LostOrder` takes its decision again: its lost
      order is back, and only its count of decisions is one too high. */
  lemma LostOrderReturns()
    ensures KnownBundles(EagerConfig(true))
    ensures var cfg := EagerConfig(true); var p := Eagerly(1); var at := Deciding(1);
      && Reached(p, cfg, Bars(1), 0, at)
      && var q := AfterCrash(p, cfg, Bars(1), 0, at);
         && q.nDecisions == p.nDecisions + 1
         && CoreOf(ProcessGroup(Recounted(q, p), cfg, Bars(1), 0).0) == CoreOf(Eagerly(2))
  {
    hide Eagerly, BundlesOk, AfterCrash, CrashedAt, ProcessGroup, CoreOf, MarkedPaper, PaperView, WantsPosition, AtBoundary, ConfigOk, Recoverable, EngineHalted, RawDecision, Untouched, Resumed, Unnumbered, EagerConfig, HasSymbol;
    var cfg := EagerConfig(true);
    FirstBoundary();
    var p := Eagerly(1);
    BoundaryIsRecoverable(p, cfg, 0);
    MarkOfSecond(true);
    NextDay(1);
    assert Bars(1)[..1] == Bars(1) && Bars(1)[0].symbol in cfg.bundles;
    OneKnown(cfg, 1);
    CrashCounters(p, cfg, 0, Bars(1), 0, Deciding(1));
    CrashedGroupIff(p, cfg, 0, Bars(1), 0, Deciding(1), Bars(1), 0);
  }

  lemma OneKnown(cfg: PaperConfig, t: int)
    requires "B" in cfg.bundles
    ensures Known(cfg, Bars(t)) == 1
  {
    assert Bars(t)[1..] == [];
  }

  lemma RestartIsNew()
    ensures KnownBundles(EagerConfig(true))
    ensures var cfg := EagerConfig(true); var p := Eagerly(0); var at := Opening(1);
      && Reached(p, cfg, Bars(0), 0, at) && QueueUntouched(p, cfg, Bars(0), 0, at)
      && BufferOf(CrashedAt(p, cfg, Bars(0), 0, at).buffers, "B") == Bars(0)
      && AfterCrash(p, cfg, Bars(0), 0, at) == p
  {
    EagerConfigOk(true);
    hide BundlesOk, HasSymbol, FillsOf;
    var cfg := EagerConfig(true);
    var p := Eagerly(0);
    assert Days(0) == [] && p == NewPaper(cfg);
    assert Bars(0)[..1] == Bars(0);
    NothingToOpen(Arrived(p, Bars(0)), cfg, Bars(0), 0);
    EnterBarsAppends(p.buffers, Bars(0), "B");
    FilterAll(Bars(0), BySymbol("B"));
    assert RecallAll(NewPaper(cfg), []) == NewPaper(cfg);
  }

  /** Killed while its first bar opens, with nothing queued, the engine comes back without that bar:
      the next one finds it still warming up, where the uninterrupted engine places its order. */
  lemma MissedBar()
    ensures KnownBundles(EagerConfig(true))
    ensures var cfg := EagerConfig(true); var p := Eagerly(0); var at := Opening(1);
      && Reached(p, cfg, Bars(0), 0, at) && QueueUntouched(p, cfg, Bars(0), 0, at)
      && BufferOf(CrashedAt(p, cfg, Bars(0), 0, at).buffers, "B") == Bars(0)
      && var q := AfterCrash(p, cfg, Bars(0), 0, at);
         BufferOf(q.buffers, "B") == [] && ProcessGroup(q, cfg, Bars(1), 0).0.desk.pending == [] && OneBuy(Eagerly(2).desk)
  {
    hide CrashedAt, AfterCrash, Reached, QueueUntouched, Eagerly, ProcessGroup, OneBuy, BundlesOk, StateFile;
    RestartIsNew();
    NotYetBorn();
    WarmupGroup(Eagerly(0), true, 1, 0);
    SecondDay();
  }

  /** Stale and flat, the engine opens a position: the order was queued before the feed went quiet. */
  lemma StaleEngineOpens()
    ensures KnownBundles(EagerConfig(true))
    ensures var cfg := EagerConfig(true);
      var s := React(Eagerly(2), cfg, StalenessCheck(100));
      var q := React(s, cfg, Batch(Bars(2), 0));
      && DataStaleness in s.kill && Held(s.desk, "B") == 0.0
      && DataStaleness in q.kill && Held(q.desk, "B") == 100.0
  {
    hide StateFile, Eagerly, BundlesOk, ProcessGroup, ProcessBatch, MarkedPaper, Mine, Held, EagerConfig, ReplayLeq;
    var cfg := EagerConfig(true);
    SecondDay();
    GoesStale(Eagerly(2));
    var s := React(Eagerly(2), cfg, StalenessCheck(100));
    BarAlone(2, true);
    BatchOfGroup(s, cfg, Bars(2), 0);
    MarkedDesk(s, cfg, Bars(2), 0);
    GroupKeepsStaleness(s, cfg, Bars(2), 0);
    HaltedGroup(s, cfg, Bars(2), 0, "B");
  }

  lemma GoesStale(p: Paper)
    requires KnownBundles(EagerConfig(true)) && p.lastBarTime == Some(1) && p.kill == {}
    ensures var s := React(p, EagerConfig(true), StalenessCheck(100)); s.desk == p.desk && DataStaleness in s.kill
  {
  }

  lemma BarAlone(t: int, armed: bool)
    ensures SortedBy(Bars(t), ReplayLeq) && SameTime(Bars(t)) && OneBarPerSymbol(Bars(t)) && OpensPositive(Bars(t))
    ensures (forall b :: b in Bars(t) ==> Relevant(EagerConfig(armed))(b)) && HasSymbol(Bars(t), "B")
  {
    assert Bars(t)[0].symbol == "B";
  }

  /** With the master switch turned off before a restart, the restored order still fills. */
  lemma SwitchedOffStillFills()
    ensures KnownBundles(EagerConfig(true)) && KnownBundles(EagerConfig(false))
    ensures var off := EagerConfig(false); var p := Eagerly(2);
      var q := Restart(off, p.journal, p.saved);
      q.desk.pending == p.desk.pending && ProcessGroup(q, off, Bars(2), 0).0.nFills != q.nFills
  {
    hide StateFile, Eagerly, BundlesOk, ProcessGroup, RecallAll, RememberAll;
    var off := EagerConfig(false);
    EagerConfigOk(false);
    var p := Eagerly(2);
    SecondDay();
    var q := Restart(off, p.journal, p.saved);
    RestartIsJournalled(off, p.journal, p.saved);
    RestoredQueue(off, p);
    assert Bars(2)[0].symbol == "B" && q.desk.pending[0] in q.desk.pending;
    DisabledStillFills(q, off, Bars(2), 0);
  }

  lemma RestoredQueue(off: PaperConfig, p: Paper)
    requires p.saved == Some(StateFile(p, EagerConfig(true)))
    ensures Restart(off, p.journal, p.saved).desk.pending == p.desk.pending
  {
    RecallIsRemember(NewPaper(off), p.journal);
    assert [] + p.desk.pending == p.desk.pending;
  }

  lemma StaleBoundary()
    ensures KnownBundles(EagerConfig(true)) && ConfigOk(EagerConfig(true))
    ensures var cfg := EagerConfig(true); var s := React(Eagerly(1), cfg, StalenessCheck(100));
      && AtBoundary(s, cfg, 0) && DataStaleness in s.kill && CoreOf(s) == CoreOf(Eagerly(1)) && s.buffers == Eagerly(1).buffers
      && s.desk == Eagerly(1).desk
  {
    hide StateFile, Eagerly, BundlesOk, Days, FollowsCurve, Journalled;
    var cfg := EagerConfig(true);
    FirstDay();
    var stimuli := Days(1) + [StalenessCheck(100)];
    var s := React(Eagerly(1), cfg, StalenessCheck(100));
    Remembers(1);
    assert stimuli[..|stimuli| - 1] == Days(1);
    assert Life(cfg, stimuli) == s;
    JournalTellsAll(cfg, stimuli);
    LifeFollows(cfg, stimuli);
    SameStateFile(Eagerly(1), s, cfg);
  }

  lemma SameStateFile(p: Paper, q: Paper, cfg: PaperConfig)
    requires q.desk == p.desk && q.buffers == p.buffers && q.lastBarTime == p.lastBarTime && q.prevClose == p.prevClose
    ensures StateFile(p, cfg) == StateFile(q, cfg)
  {
  }

  /** Stale at the restart, the engine would have refused the order its rebuilt self queues. */
  lemma RestartTradesAgain()
    ensures KnownBundles(EagerConfig(true))
    ensures var cfg := EagerConfig(true);
      var s := React(Eagerly(1), cfg, StalenessCheck(100));
      var q := Restart(cfg, s.journal, s.saved);
      CoreOf(ProcessGroup(s, cfg, Bars(1), 0).0) != CoreOf(ProcessGroup(q, cfg, Bars(1), 0).0)
  {
    hide StateFile, Eagerly, BundlesOk, ProcessGroup, MarkedPaper, CoreOf, Untouched, AtBoundary, ConfigOk, PaperView, Restart, RawDecision;
    var cfg := EagerConfig(true);
    StaleBoundary();
    var s := React(Eagerly(1), cfg, StalenessCheck(100));
    var m := MarkedPaper(s, cfg, Bars(1), 0);
    MarkedSame(s, Eagerly(1), cfg, Bars(1), 0);
    MarkedDesk(s, cfg, Bars(1), 0);
    MarkedDesk(Eagerly(1), cfg, Bars(1), 0);
    FirstDay();
    QuietMark(Eagerly(1), cfg, Bars(0), 1, 0);
    EagerDecides(m, true, Bars(0) + Bars(1), 1);
    UntouchedHolds(m.desk, "B");
    assert FlatBar("B", 1) in Bars(1) && WantsPosition(m, cfg, PaperView(m, cfg, 2), FlatBar("B", 1));
    RestartedGroupIff(s, cfg, 0, Bars(1), 0);
  }
}
