/** Running on after a restart: the rebuilt engine makes the same raw decisions, and it stays the
    same engine, order ids and risk memory aside, exactly as long as no decision is one that a halt
    of only one of the two blocks. */
module PaperResume {
  import opened Collections
  import opened Market
  import opened Timeline
  import opened Source
  import opened Oms
  import opened Venue
  import opened Risk
  import opened Desk
  import opened ReplaySafety
  import opened Commitment
  import opened Strategies
  import opened PaperState
  import opened PaperRefinement
  import opened PaperRecovery
  import opened PaperHalts
  import opened PaperOrders
  import opened PaperCurve

  // ------------------------------------------------------------- the part that must agree

  function Unnumbered(orders: seq<Order>): (os: seq<Order>)
    ensures |os| == |orders|
  {
    seq(|orders|, i requires 0 <= i < |orders| => orders[i].(id := EmptyId))
  }

  /** Engine state up to order ids, risk memory, equity history and old bars. */
  datatype Core = Core(
    essence: Essence, marks: map<string, real>, lastBarTime: Option<int>, prevClose: Option<int>, queue: seq<Order>)

  function CoreOf(p: Paper): Core {
    Core(EssenceOf(p), p.desk.marks, p.lastBarTime, p.prevClose, Unnumbered(p.desk.pending))
  }

  /** Buffers hold their own symbol, in arrival order, up to time `t`. */
  ghost predicate BuffersOk(buffers: map<string, seq<Bar>>, cfg: PaperConfig, t: int) {
    forall s :: s in cfg.symbols ==>
      && TimeOrdered(BufferOf(buffers, s))
      && forall b :: b in BufferOf(buffers, s) ==> b.symbol == s && b.interval == cfg.interval && b.time <= t
  }

  ghost predicate SameTails(p: Paper, q: Paper, cfg: PaperConfig) {
    forall s :: s in cfg.symbols && s in cfg.bundles ==>
      LastN(BufferOf(p.buffers, s), Keep(cfg, s)) == LastN(BufferOf(q.buffers, s), Keep(cfg, s))
  }

  ghost predicate Resumed(p: Paper, q: Paper, cfg: PaperConfig, t: int) {
    CoreOf(p) == CoreOf(q) && BuffersOk(p.buffers, cfg, t) && BuffersOk(q.buffers, cfg, t) && SameTails(p, q, cfg)
  }

  /** A restart at a group boundary puts the engine in this relation with its former self. */
  lemma RestartResumes(p: Paper, cfg: PaperConfig, t: int)
    requires ConfigOk(cfg) && Journalled(p, cfg) && BuffersOk(p.buffers, cfg, t)
    requires p.saved == Some(StateFile(p, cfg)) && p.lastBarTime.Some? && p.prevClose.Some?
    ensures Resumed(p, Restart(cfg, p.journal, p.saved), cfg, t)
  {
    hide Restart, StateFile, Journalled, Keep, BufferOf, Unnumbered, LimitsOk, BundlesOk;
    RestartAtBoundary(p, cfg);
    var q := Restart(cfg, p.journal, p.saved);
    forall s | s in cfg.symbols
      ensures LastN(BufferOf(p.buffers, s), Keep(cfg, s)) == LastN(BufferOf(q.buffers, s), Keep(cfg, s))
    {
    }
    TailsOk(p.buffers, q.buffers, cfg, t);
  }

  lemma TailsOk(buffers: map<string, seq<Bar>>, tails: map<string, seq<Bar>>, cfg: PaperConfig, t: int)
    requires BuffersOk(buffers, cfg, t) && forall s :: s in cfg.symbols <==> s in cfg.bundles
    requires forall s :: s in cfg.symbols ==> BufferOf(tails, s) == LastN(BufferOf(buffers, s), Keep(cfg, s))
    ensures BuffersOk(tails, cfg, t)
  {
    hide Keep, TimeOrdered, BufferOf;
    forall s | s in cfg.symbols
      ensures TimeOrdered(BufferOf(tails, s))
      ensures forall b :: b in BufferOf(tails, s) ==> b.symbol == s && b.interval == cfg.interval && b.time <= t
    {
      TailOrdered(BufferOf(buffers, s), Keep(cfg, s));
    }
  }

  lemma TailOrdered(bars: seq<Bar>, k: nat)
    requires TimeOrdered(bars)
    ensures TimeOrdered(LastN(bars, k))
  {
  }

  // ------------------------------------------------------------- history of a buffered source

  lemma SameSymbolSorted(bars: seq<Bar>, s: string)
    requires TimeOrdered(bars) && forall b :: b in bars ==> b.symbol == s
    ensures SortedBy(bars, ReplayLeq)
  {
    SymbolLeqTotal(s, s);
  }

  /** Over in-order buffers, a history query is simply the newest end of its buffer. */
  lemma HistoryIsTail(m: Paper, cfg: PaperConfig, t: int, s: string, n: nat)
    requires ConfigOk(cfg) && BuffersOk(m.buffers, cfg, t) && s in cfg.symbols && n > 0
    ensures History(PaperView(m, cfg, t + StepOf(cfg.interval)), s, cfg.interval, n) == LastN(BufferOf(m.buffers, s), n)
  {
    hide TotalPreorder, History, Filter, SortBy, SortedBy, AllBars, SymbolLeq, LastN;
    var now := t + StepOf(cfg.interval);
    var all := AllBars(cfg.symbols, m.buffers);
    var c := ClosedOf(s, cfg.interval, now);
    var buffer := BufferOf(m.buffers, s);
    HistoryFromClosed(PaperView(m, cfg, now), s, cfg.interval, n);
    ReplayOrder();
    SortFilter(all, ReplayLeq, c);
    AllBarsOf(cfg.symbols, m.buffers, s, c);
    FilterAll(buffer, c);
    SameSymbolSorted(buffer, s);
    SortOfSorted(buffer, ReplayLeq);
  }

  lemma {:induction false} VectorFromTails(features: seq<Feature>, s: string, interval: Interval, v: View, w: View)
    requires forall i :: 0 <= i < |features| ==> features[i].lookback > 0
    requires forall n: nat | 0 < n <= MaxLookback(features) :: History(v, s, interval, n) == History(w, s, interval, n)
    ensures FeatureVector(features, s, interval, v) == FeatureVector(features, s, interval, w)
  {
    if features != [] {
      hide History;
      VectorFromTails(features[..|features| - 1], s, interval, v, w);
    }
  }

  /** Same raw decision on the next bars: only history up to the longest lookback and the
      portfolio enter it. */
  lemma SameDecision(p: Paper, q: Paper, cfg: PaperConfig, t: int, b: Bar)
    requires ConfigOk(cfg) && b.symbol in cfg.bundles
    requires BuffersOk(p.buffers, cfg, t) && BuffersOk(q.buffers, cfg, t) && SameTails(p, q, cfg)
    requires p.desk.account.cash == q.desk.account.cash && p.desk.account.book == q.desk.account.book
    requires p.desk.marks == q.desk.marks
    ensures var now := t + StepOf(cfg.interval);
      Strategies.Decide(cfg.bundles[b.symbol], b, PaperView(p, cfg, now), TakeSnapshot(p.desk.account, p.desk.marks))
      == Strategies.Decide(cfg.bundles[b.symbol], b, PaperView(q, cfg, now), TakeSnapshot(q.desk.account, q.desk.marks))
  {
    hide FeatureVector, PaperView, BuffersOk, SameTails;
    SameVector(p, q, cfg, t, b.symbol);
  }

  lemma SameVector(p: Paper, q: Paper, cfg: PaperConfig, t: int, s: string)
    requires ConfigOk(cfg) && s in cfg.bundles
    requires BuffersOk(p.buffers, cfg, t) && BuffersOk(q.buffers, cfg, t) && SameTails(p, q, cfg)
    ensures var now := t + StepOf(cfg.interval); var features := cfg.bundles[s].features;
      FeatureVector(features, s, cfg.interval, PaperView(p, cfg, now))
      == FeatureVector(features, s, cfg.interval, PaperView(q, cfg, now))
  {
    hide FeatureVector, PaperView, History, BuffersOk, BufferOf, LastN;
    var now := t + StepOf(cfg.interval);
    var features := cfg.bundles[s].features;
    var v, w := PaperView(p, cfg, now), PaperView(q, cfg, now);
    forall n: nat | 0 < n <= MaxLookback(features)
      ensures History(v, s, cfg.interval, n) == History(w, s, cfg.interval, n)
    {
      HistoryIsTail(p, cfg, t, s, n);
      HistoryIsTail(q, cfg, t, s, n);
      LastNShorter(BufferOf(p.buffers, s), BufferOf(q.buffers, s), Keep(cfg, s), n);
    }
    VectorFromTails(features, s, cfg.interval, v, w);
  }

  // ------------------------------------------------------------- phases preserve agreement

  predicate SameFills(xs: seq<Fill>, ys: seq<Fill>) {
    |xs| == |ys| && forall i :: 0 <= i < |xs| ==> xs[i].(id := EmptyId) == ys[i].(id := EmptyId)
  }

  lemma {:induction false} SettleSame(p: Paper, q: Paper, xs: seq<Fill>, ys: seq<Fill>, wall: int)
    requires CoreOf(p) == CoreOf(q) && SameFills(xs, ys)
    ensures CoreOf(SettleFills(p, xs, wall)) == CoreOf(SettleFills(q, ys, wall))
    decreases |xs|
  {
    if xs != [] {
      hide CoreOf, SettleFill, SettleEssence;
      SameEssence(p, q);
      assert xs[0].(id := EmptyId) == ys[0].(id := EmptyId);
      SettleSame(SettleFill(p, xs[0], wall), SettleFill(q, ys[0], wall), xs[1..], ys[1..], wall);
    }
  }

  lemma SameEssence(p: Paper, q: Paper)
    requires CoreOf(p) == CoreOf(q)
    ensures EssenceOf(p) == EssenceOf(q) && Unnumbered(p.desk.pending) == Unnumbered(q.desk.pending)
    ensures p.desk.marks == q.desk.marks && p.prevClose == q.prevClose && p.lastBarTime == q.lastBarTime
  {
  }

  ghost predicate IgnoresId(p: Order -> bool) {
    forall o: Order :: p(o) == p(o.(id := EmptyId))
  }

  lemma {:induction false} UnnumberedFilter(orders: seq<Order>, p: Order -> bool)
    requires IgnoresId(p)
    ensures Unnumbered(Filter(orders, p)) == Filter(Unnumbered(orders), p)
  {
    if orders != [] {
      hide IgnoresId, Filter, Unnumbered;
      var o, rest := orders[0], orders[1..];
      UnnumberedFilter(rest, p);
      assert orders == [o] + rest;
      FilterCons(o, rest, p);
      FilterCons(o.(id := EmptyId), Unnumbered(rest), p);
      UnnumberedCons(o, rest);
      UnnumberedCons(o, Filter(rest, p));
      assert [] + Filter(rest, p) == Filter(rest, p);
    }
  }

  lemma SameQueueFills(costs: Costs, xs: seq<Order>, ys: seq<Order>, open: real, time: int)
    requires Unnumbered(xs) == Unnumbered(ys)
    ensures SameFills(FillsOf(costs, xs, open, time), FillsOf(costs, ys, open, time))
  {
    hide FillPrice;
    assert |xs| == |Unnumbered(xs)| == |Unnumbered(ys)| == |ys|;
    forall i | 0 <= i < |xs|
      ensures FillOf(costs, xs[i], open, time).(id := EmptyId) == FillOf(costs, ys[i], open, time).(id := EmptyId)
    {
      assert Unnumbered(xs)[i] == Unnumbered(ys)[i];
    }
  }

  lemma OpenBarSame(p: Paper, q: Paper, cfg: PaperConfig, b: Bar, wall: int)
    requires CoreOf(p) == CoreOf(q)
    ensures CoreOf(OpenPaperBar(p, cfg, b, wall)) == CoreOf(OpenPaperBar(q, cfg, b, wall))
  {
    hide FillOf, FillsOf, Filter, Unnumbered, SettleFills;
    UnnumberedFilter(p.desk.pending, OrderFor(b.symbol));
    UnnumberedFilter(q.desk.pending, OrderFor(b.symbol));
    UnnumberedFilter(p.desk.pending, OrderNotFor(b.symbol));
    UnnumberedFilter(q.desk.pending, OrderNotFor(b.symbol));
    SameQueueFills(cfg.rules.costs, Filter(p.desk.pending, OrderFor(b.symbol)), Filter(q.desk.pending, OrderFor(b.symbol)), b.open, b.time);
    var p1 := p.(desk := p.desk.(pending := Filter(p.desk.pending, OrderNotFor(b.symbol))));
    var q1 := q.(desk := q.desk.(pending := Filter(q.desk.pending, OrderNotFor(b.symbol))));
    SettleSame(p1, q1, FillsOf(cfg.rules.costs, Filter(p.desk.pending, OrderFor(b.symbol)), b.open, b.time),
               FillsOf(cfg.rules.costs, Filter(q.desk.pending, OrderFor(b.symbol)), b.open, b.time), wall);
  }

  lemma {:induction false} OpenSame(p: Paper, q: Paper, cfg: PaperConfig, bars: seq<Bar>, wall: int)
    requires CoreOf(p) == CoreOf(q)
    ensures CoreOf(OpenPaper(p, cfg, bars, wall)) == CoreOf(OpenPaper(q, cfg, bars, wall))
    decreases |bars|
  {
    if bars != [] && bars[0].open > 0.0 {
      hide CoreOf, OpenPaperBar;
      OpenBarSame(p, q, cfg, bars[0], wall);
      OpenSame(OpenPaperBar(p, cfg, bars[0], wall), OpenPaperBar(q, cfg, bars[0], wall), cfg, bars[1..], wall);
    }
  }

  lemma CloseCore(p: Paper, cfg: PaperConfig, group: seq<Bar>, close: int, wall: int)
    ensures CoreOf(ClosePaper(p, cfg, group, close, wall)) == CoreOf(p).(marks := MarkGroup(p.desk.marks, group))
    ensures ClosePaper(p, cfg, group, close, wall).buffers == p.buffers
  {
    var closed := p.(desk := CloseGroup(p.desk, cfg.rules, group, close));
    SyncMirrorsRisk(closed, wall);
    hide SyncHalts, RiskUpdate, Equity, Unnumbered;
  }

  lemma MarkedSame(p: Paper, q: Paper, cfg: PaperConfig, group: seq<Bar>, wall: int)
    requires group != [] && CoreOf(p) == CoreOf(q)
    ensures var m, n := MarkedPaper(p, cfg, group, wall), MarkedPaper(q, cfg, group, wall);
      CoreOf(m) == CoreOf(n) && m.buffers == EnterBars(p.buffers, group) && n.buffers == EnterBars(q.buffers, group)
  {
    hide ClosePaper, OpenPaper, EnterBars;
    var close := group[0].time + StepOf(cfg.interval);
    OpenSame(Arrived(p, group), Arrived(q, group), cfg, group, wall);
    OpenPaperDesk(Arrived(p, group), cfg, group, wall);
    OpenPaperDesk(Arrived(q, group), cfg, group, wall);
    CloseCore(OpenPaper(Arrived(p, group), cfg, group, wall), cfg, group, close, wall);
    CloseCore(OpenPaper(Arrived(q, group), cfg, group, wall), cfg, group, close, wall);
  }

  lemma {:induction false} DeltaOrdersUnnumbered(book: Book, targets: seq<Target>, submitTime: int, m: nat, n: nat)
    ensures Unnumbered(DeltaOrders(book, targets, submitTime, m)) == Unnumbered(DeltaOrders(book, targets, submitTime, n))
    decreases |targets|
  {
    if targets != [] {
      DeltaOrdersUnnumbered(book, targets[1..], submitTime, m, n);
      DeltaOrdersUnnumbered(book, targets[1..], submitTime, m + 1, n + 1);
      var x, y := DeltaOrder(book, targets[0], submitTime, m), DeltaOrder(book, targets[0], submitTime, n);
      if x.Some? {
        UnnumberedCons(x.value, DeltaOrders(book, targets[1..], submitTime, m + 1));
        UnnumberedCons(y.value, DeltaOrders(book, targets[1..], submitTime, n + 1));
      }
    }
  }

  lemma UnnumberedCons(o: Order, rest: seq<Order>)
    ensures Unnumbered([o] + rest) == [o.(id := EmptyId)] + Unnumbered(rest)
  {
  }

  lemma UnnumberedAppend(xs: seq<Order>, ys: seq<Order>)
    ensures Unnumbered(xs + ys) == Unnumbered(xs) + Unnumbered(ys)
  {
  }

  /** The decision is not one that a halt of only one of the two engines blocks. */
  predicate HaltIndifferent(p: Paper, q: Paper, cfg: PaperConfig, view: View, b: Bar)
    requires BundlesOk(cfg.bundles)
  {
    EngineHalted(p) == EngineHalted(q) || !WantsPosition(p, cfg, view, b)
  }

  lemma HandleSame(p: Paper, q: Paper, cfg: PaperConfig, symbol: string, d: Decision, submitTime: int, wall: int)
    requires CoreOf(p) == CoreOf(q)
    requires EngineHalted(p) == EngineHalted(q) || !cfg.armed || !d.Decided? || d.targetQty == 0.0
             || Abs(d.targetQty - Held(p.desk, symbol)) < MIN_DELTA_QTY
    ensures CoreOf(HandleDecision(p, cfg, symbol, d, submitTime, wall)) == CoreOf(HandleDecision(q, cfg, symbol, d, submitTime, wall))
  {
    hide DeltaOrders, Unnumbered, Filter, AllowedTargets, EngineHalted;
    if d.Decided? && cfg.armed {
      var t := Target(symbol, d.targetQty);
      PassedTargets(p, t);
      PassedTargets(q, t);
      if AllowedTargets(p, t) == AllowedTargets(q, t) {
        QueueSame(p, q, AllowedTargets(p, t), submitTime);
      } else {
        NothingQueued(p.desk, submitTime);
        NothingQueued(q.desk, submitTime);
        OneOrder(p.desk, t, submitTime);
        OneOrder(q.desk, t, submitTime);
      }
    }
  }

  lemma QueueSame(p: Paper, q: Paper, allowed: seq<Target>, submitTime: int)
    requires CoreOf(p) == CoreOf(q)
    ensures Unnumbered(QueueTargets(p.desk, allowed, submitTime).pending)
         == Unnumbered(QueueTargets(q.desk, allowed, submitTime).pending)
  {
    hide DeltaOrders, Unnumbered;
    var book := p.desk.account.book;
    DeltaOrdersUnnumbered(book, allowed, submitTime, p.desk.account.orderSeq, q.desk.account.orderSeq);
    UnnumberedAppend(p.desk.pending, DeltaOrders(book, allowed, submitTime, p.desk.account.orderSeq));
    UnnumberedAppend(q.desk.pending, DeltaOrders(book, allowed, submitTime, q.desk.account.orderSeq));
  }

  /** The two engines, as their decisions on a group see them. */
  ghost predicate Deciders(p: Paper, q: Paper, cfg: PaperConfig, t: int, v: View, w: View) {
    && CoreOf(p) == CoreOf(q) && BuffersOk(p.buffers, cfg, t) && BuffersOk(q.buffers, cfg, t) && SameTails(p, q, cfg)
    && v == PaperView(p, cfg, t + StepOf(cfg.interval)) && w == PaperView(q, cfg, t + StepOf(cfg.interval))
  }

  lemma DecideBarSame(p: Paper, q: Paper, cfg: PaperConfig, t: int, v: View, w: View, b: Bar, wall: int)
    requires ConfigOk(cfg) && Deciders(p, q, cfg, t, v, w) && HaltIndifferent(p, q, cfg, v, b)
    ensures var p', q' := DecidePaperBar(p, cfg, v, b, wall), DecidePaperBar(q, cfg, w, b, wall);
      Deciders(p', q', cfg, t, v, w) && p'.buffers == p.buffers && q'.buffers == q.buffers
  {
    hide CoreOf, HandleDecision, Strategies.Decide, EngineHalted, BuffersOk, SameTails, PaperView;
    SameEssence(p, q);
    if b.symbol in cfg.bundles {
      SameDecision(p, q, cfg, t, b);
      ViewClock(p, cfg, t + StepOf(cfg.interval));
      ViewClock(q, cfg, t + StepOf(cfg.interval));
      HandleSame(p, q, cfg, b.symbol, RawDecision(p, cfg, v, b), v.now, wall);
    }
    HandleKeepsBuffers(p, cfg, v, b, wall);
    HandleKeepsBuffers(q, cfg, w, b, wall);
    var p', q' := DecidePaperBar(p, cfg, v, b, wall), DecidePaperBar(q, cfg, w, b, wall);
    TailsOfBuffers(p, q, p', q', cfg);
    SameView(p, p', cfg, t + StepOf(cfg.interval));
    SameView(q, q', cfg, t + StepOf(cfg.interval));
  }

  lemma ViewClock(p: Paper, cfg: PaperConfig, now: int)
    ensures PaperView(p, cfg, now).now == now
  {
  }

  lemma SameView(p: Paper, q: Paper, cfg: PaperConfig, now: int)
    requires q.buffers == p.buffers
    ensures PaperView(p, cfg, now) == PaperView(q, cfg, now)
  {
  }

  lemma HandleKeepsBuffers(p: Paper, cfg: PaperConfig, v: View, b: Bar, wall: int)
    requires BundlesOk(cfg.bundles)
    ensures DecidePaperBar(p, cfg, v, b, wall).buffers == p.buffers
  {
    hide Strategies.Decide, DeltaOrders, AllowedTargets;
  }

  lemma IndifferentStill(p: Paper, q: Paper, p': Paper, q': Paper, cfg: PaperConfig, view: View, b: Bar)
    requires BundlesOk(cfg.bundles) && HaltIndifferent(p, q, cfg, view, b)
    requires SameStanding(p.desk, p'.desk) && p'.kill == p.kill && SameStanding(q.desk, q'.desk) && q'.kill == q.kill
    ensures HaltIndifferent(p', q', cfg, view, b)
  {
    hide Strategies.Decide;
  }

  lemma {:induction false} DecideSame(p: Paper, q: Paper, cfg: PaperConfig, t: int, v: View, w: View, group: seq<Bar>, wall: int)
    requires ConfigOk(cfg) && Deciders(p, q, cfg, t, v, w)
    requires forall b :: b in group ==> HaltIndifferent(p, q, cfg, v, b)
    ensures var p', q' := DecidePaper(p, cfg, v, group, wall), DecidePaper(q, cfg, w, group, wall);
      CoreOf(p') == CoreOf(q') && p'.buffers == p.buffers && q'.buffers == q.buffers
    decreases |group|
  {
    if group != [] {
      hide CoreOf, DecidePaperBar, HaltIndifferent, BuffersOk, SameTails, PaperView;
      var b := group[0];
      var p', q' := DecidePaperBar(p, cfg, v, b, wall), DecidePaperBar(q, cfg, w, b, wall);
      DecideBarSame(p, q, cfg, t, v, w, b, wall);
      DecisionReach(p, cfg, v, b, wall);
      DecisionReach(q, cfg, w, b, wall);
      forall x | x in group[1..] ensures HaltIndifferent(p', q', cfg, v, x) {
        IndifferentStill(p, q, p', q', cfg, v, x);
      }
      DecideSame(p', q', cfg, t, v, w, group[1..], wall);
    }
  }

  // ------------------------------------------------------------- a halt that matters shows in the queue

  lemma SameWants(p: Paper, q: Paper, cfg: PaperConfig, t: int, v: View, w: View, b: Bar)
    requires ConfigOk(cfg) && Deciders(p, q, cfg, t, v, w)
    ensures Wants(p, cfg, v, b) == Wants(q, cfg, w, b)
    ensures WantsPosition(p, cfg, v, b) == WantsPosition(q, cfg, w, b)
  {
    hide CoreOf, Strategies.Decide, BuffersOk, SameTails, PaperView;
    SameEssence(p, q);
    if b.symbol in cfg.bundles {
      SameDecision(p, q, cfg, t, b);
    }
  }

  /** A halted engine queues fewer orders than its unhalted twin exactly when some decision wants a
      position. */
  lemma {:induction false} HaltedQueuesFewer(h: Paper, u: Paper, cfg: PaperConfig, t: int, v: View, w: View, bars: seq<Bar>)
    requires ConfigOk(cfg) && Deciders(h, u, cfg, t, v, w) && EngineHalted(h) && !EngineHalted(u)
    ensures Queued(h, cfg, v, bars) <= Queued(u, cfg, w, bars)
    ensures Queued(h, cfg, v, bars) == Queued(u, cfg, w, bars) <==> forall b :: b in bars ==> !WantsPosition(h, cfg, v, b)
  {
    hide Deciders, EngineHalted, Wants, WantsPosition, ConfigOk, BundlesOk;
    ConfigBundles(cfg);
    if bars != [] {
      SameWants(h, u, cfg, t, v, w, bars[0]);
      WantsFirst(h, cfg, v, bars[0]);
      HaltedQueuesFewer(h, u, cfg, t, v, w, bars[1..]);
      assert forall b :: b in bars <==> b == bars[0] || b in bars[1..];
    }
  }

  lemma WantsFirst(p: Paper, cfg: PaperConfig, v: View, b: Bar)
    requires BundlesOk(cfg.bundles)
    ensures WantsPosition(p, cfg, v, b) ==> Wants(p, cfg, v, b)
  {
  }

  lemma SwapDeciders(p: Paper, q: Paper, cfg: PaperConfig, t: int, v: View, w: View)
    requires Deciders(p, q, cfg, t, v, w)
    ensures Deciders(q, p, cfg, t, w, v)
  {
    hide CoreOf, BuffersOk, PaperView, LastN, Keep, BufferOf;
  }

  /** After one group's decisions the two engines are the same exactly when no decision was one that
      a halt of only one of them blocks. */
  lemma DecideSameIff(p: Paper, q: Paper, cfg: PaperConfig, t: int, v: View, w: View, group: seq<Bar>, wall: int)
    requires ConfigOk(cfg) && Deciders(p, q, cfg, t, v, w)
    ensures CoreOf(DecidePaper(p, cfg, v, group, wall)) == CoreOf(DecidePaper(q, cfg, w, group, wall))
      <==> forall b :: b in group ==> HaltIndifferent(p, q, cfg, v, b)
  {
    hide DecidePaper, EngineHalted, WantsPosition, BuffersOk, SameTails, PaperView, ConfigOk, Queued;
    ConfigBundles(cfg);
    if forall b :: b in group ==> HaltIndifferent(p, q, cfg, v, b) {
      DecideSame(p, q, cfg, t, v, w, group, wall);
    } else {
      DecisionsQueue(p, p, cfg, v, group, wall);
      DecisionsQueue(q, q, cfg, w, group, wall);
      SameEssence(p, q);
      assert |p.desk.pending| == |Unnumbered(p.desk.pending)| == |q.desk.pending|;
      SwapDeciders(p, q, cfg, t, v, w);
      var b :| b in group && !HaltIndifferent(p, q, cfg, v, b);
      SameWants(p, q, cfg, t, v, w, b);
      if EngineHalted(p) {
        HaltedQueuesFewer(p, q, cfg, t, v, w, group);
      } else {
        HaltedQueuesFewer(q, p, cfg, t, w, v, group);
      }
      QueuesDiffer(DecidePaper(p, cfg, v, group, wall), DecidePaper(q, cfg, w, group, wall));
    }
  }

  lemma QueuesDiffer(p: Paper, q: Paper)
    requires |p.desk.pending| != |q.desk.pending|
    ensures CoreOf(p) != CoreOf(q)
  {
    assert |CoreOf(p).queue| == |p.desk.pending| && |CoreOf(q).queue| == |q.desk.pending|;
  }

  lemma TailsOfBuffers(p: Paper, q: Paper, p': Paper, q': Paper, cfg: PaperConfig)
    requires SameTails(p, q, cfg) && p'.buffers == p.buffers && q'.buffers == q.buffers
    ensures SameTails(p', q', cfg)
  {
  }

  // ------------------------------------------------------------- buffers over a group

  lemma GrownBufferOk(buffer: seq<Bar>, mine: seq<Bar>, t: int, t': int)
    requires TimeOrdered(buffer) && t <= t'
    requires (forall b :: b in buffer ==> b.time <= t) && forall b :: b in mine ==> b.time == t'
    ensures TimeOrdered(buffer + mine)
  {
    var all := buffer + mine;
    forall i, j | 0 <= i < j < |all| ensures all[i].time <= all[j].time {
      if i < |buffer| {
        assert all[i] in buffer;
      } else {
        assert all[i] in mine;
      }
      if j >= |buffer| {
        assert all[j] in mine;
      }
    }
  }

  lemma BuffersStayOk(buffers: map<string, seq<Bar>>, cfg: PaperConfig, t: int, group: seq<Bar>)
    requires BuffersOk(buffers, cfg, t) && group != [] && SameTime(group) && t <= group[0].time
    requires forall b :: b in group ==> b.interval == cfg.interval
    ensures BuffersOk(EnterBars(buffers, group), cfg, group[0].time)
  {
    var t' := group[0].time;
    forall s | s in cfg.symbols
      ensures var buffer := BufferOf(EnterBars(buffers, group), s);
        TimeOrdered(buffer) && forall b :: b in buffer ==> b.symbol == s && b.interval == cfg.interval && b.time <= t'
    {
      EnterBarsAppends(buffers, group, s);
      var mine := Filter(group, BySymbol(s));
      assert forall b :: b in mine ==> b in group && BySymbol(s)(b);
      GrownBufferOk(BufferOf(buffers, s), mine, t, t');
    }
  }

  lemma TailsGrow(p: Paper, q: Paper, m: Paper, n: Paper, cfg: PaperConfig, group: seq<Bar>)
    requires SameTails(p, q, cfg)
    requires m.buffers == EnterBars(p.buffers, group) && n.buffers == EnterBars(q.buffers, group)
    ensures SameTails(m, n, cfg)
  {
    forall s | s in cfg.symbols && s in cfg.bundles
      ensures LastN(BufferOf(m.buffers, s), Keep(cfg, s)) == LastN(BufferOf(n.buffers, s), Keep(cfg, s))
    {
      EnterBarsAppends(p.buffers, group, s);
      EnterBarsAppends(q.buffers, group, s);
      LastNAppend(BufferOf(p.buffers, s), BufferOf(q.buffers, s), Filter(group, BySymbol(s)), Keep(cfg, s));
    }
  }

  // ------------------------------------------------------------- one group, then many

  predicate InOrder(group: seq<Bar>, cfg: PaperConfig, t: int) {
    group != [] && SameTime(group) && t <= group[0].time && forall b :: b in group ==> b.interval == cfg.interval
  }

  /** The next group after a restart: every raw decision is the one the uninterrupted engine
      would have made, whatever either engine's halts. */
  lemma NextRawDecisions(p: Paper, q: Paper, cfg: PaperConfig, t: int, group: seq<Bar>, b: Bar, wall: int)
    requires ConfigOk(cfg) && Resumed(p, q, cfg, t) && InOrder(group, cfg, t)
    requires b in group && b.symbol in cfg.bundles
    ensures var m, n := MarkedPaper(p, cfg, group, wall), MarkedPaper(q, cfg, group, wall);
      var now := group[0].time + StepOf(cfg.interval);
      Strategies.Decide(cfg.bundles[b.symbol], b, PaperView(m, cfg, now), TakeSnapshot(m.desk.account, m.desk.marks))
      == Strategies.Decide(cfg.bundles[b.symbol], b, PaperView(n, cfg, now), TakeSnapshot(n.desk.account, n.desk.marks))
  {
    hide MarkedPaper, EnterBars, Strategies.Decide, PaperView;
    var m, n := MarkedPaper(p, cfg, group, wall), MarkedPaper(q, cfg, group, wall);
    MarkedSame(p, q, cfg, group, wall);
    BuffersStayOk(p.buffers, cfg, t, group);
    BuffersStayOk(q.buffers, cfg, t, group);
    TailsGrow(p, q, m, n, cfg, group);
    SameDecision(m, n, cfg, group[0].time, b);
  }

  lemma FinishCore(p: Paper, cfg: PaperConfig, close: int, wall: int)
    ensures CoreOf(Finish(p, cfg, close, wall)) == CoreOf(p).(prevClose := Some(close))
    ensures Finish(p, cfg, close, wall).buffers == p.buffers
  {
  }

  /** No decision of the group is one that a halt of only one engine blocks: both are halted when
      it is decided, or neither is, or no armed decision wants a position. */
  predicate HaltsDoNotMatter(p: Paper, q: Paper, cfg: PaperConfig, group: seq<Bar>, wall: int)
    requires group != [] && BundlesOk(cfg.bundles)
  {
    var m, n := MarkedPaper(p, cfg, group, wall), MarkedPaper(q, cfg, group, wall);
    forall b :: b in group ==> HaltIndifferent(m, n, cfg, PaperView(m, cfg, group[0].time + StepOf(cfg.interval)), b)
  }

  lemma ArrivedSame(p: Paper, q: Paper, group: seq<Bar>)
    requires group != [] && CoreOf(p) == CoreOf(q)
    ensures CoreOf(Arrived(p, group)) == CoreOf(Arrived(q, group))
  {
    hide EnterBars;
  }

  lemma MarkedDeciders(p: Paper, q: Paper, cfg: PaperConfig, t: int, group: seq<Bar>, wall: int)
    requires ConfigOk(cfg) && Resumed(p, q, cfg, t) && InOrder(group, cfg, t)
    ensures var m, n := MarkedPaper(p, cfg, group, wall), MarkedPaper(q, cfg, group, wall);
      var close := group[0].time + StepOf(cfg.interval);
      Deciders(m, n, cfg, group[0].time, PaperView(m, cfg, close), PaperView(n, cfg, close))
  {
    hide MarkedPaper, EnterBars, PaperView, CoreOf, BuffersOk, SameTails;
    MarkedSame(p, q, cfg, group, wall);
    BuffersStayOk(p.buffers, cfg, t, group);
    BuffersStayOk(q.buffers, cfg, t, group);
    TailsGrow(p, q, MarkedPaper(p, cfg, group, wall), MarkedPaper(q, cfg, group, wall), cfg, group);
  }

  /** One group keeps the two engines the same, order ids and risk memory aside, if and only if
      halts do not matter to it. */
  lemma GroupResumesIff(p: Paper, q: Paper, cfg: PaperConfig, t: int, group: seq<Bar>, wall: int)
    requires ConfigOk(cfg) && Resumed(p, q, cfg, t) && InOrder(group, cfg, t)
    ensures var (p', ok) := ProcessGroup(p, cfg, group, wall);
      var (q', ok') := ProcessGroup(q, cfg, group, wall);
      && ok == ok' == OpensPositive(group)
      && (CoreOf(p') == CoreOf(q') <==> (ok ==> HaltsDoNotMatter(p, q, cfg, group, wall)))
      && (ok && CoreOf(p') == CoreOf(q') ==> Resumed(p', q', cfg, group[0].time))
  {
    hide MarkedPaper, EnterBars, PaperView, CoreOf, HaltIndifferent, BuffersOk, SameTails, DecidePaper, Finish, OpenPaper, ConfigOk;
    ConfigBundles(cfg);
    if !OpensPositive(group) {
      ArrivedSame(p, q, group);
      OpenSame(Arrived(p, group), Arrived(q, group), cfg, group, wall);
    } else {
      var close := group[0].time + StepOf(cfg.interval);
      var m, n := MarkedPaper(p, cfg, group, wall), MarkedPaper(q, cfg, group, wall);
      var v, w := PaperView(m, cfg, close), PaperView(n, cfg, close);
      MarkedDeciders(p, q, cfg, t, group, wall);
      DecideSameIff(m, n, cfg, group[0].time, v, w, group, wall);
      var d, e := DecidePaper(m, cfg, v, group, wall), DecidePaper(n, cfg, w, group, wall);
      DecideKeepsBuffers(m, cfg, v, group, wall);
      DecideKeepsBuffers(n, cfg, w, group, wall);
      FinishCore(d, cfg, close, wall);
      FinishCore(e, cfg, close, wall);
      SameEssence(m, n);
      FinishedSameIff(d, e, cfg, close, wall);
      TailsOfBuffers(m, n, Finish(d, cfg, close, wall), Finish(e, cfg, close, wall), cfg);
    }
  }

  lemma FinishedSameIff(d: Paper, e: Paper, cfg: PaperConfig, close: int, wall: int)
    requires d.prevClose == e.prevClose
    ensures CoreOf(Finish(d, cfg, close, wall)) == CoreOf(Finish(e, cfg, close, wall)) <==> CoreOf(d) == CoreOf(e)
  {
    hide Finish, EssenceOf, Unnumbered;
    FinishCore(d, cfg, close, wall);
    FinishCore(e, cfg, close, wall);
  }

  lemma {:induction false} DecideKeepsBuffers(p: Paper, cfg: PaperConfig, v: View, group: seq<Bar>, wall: int)
    requires BundlesOk(cfg.bundles)
    ensures var q := DecidePaper(p, cfg, v, group, wall); q.buffers == p.buffers && q.prevClose == p.prevClose
    decreases |group|
  {
    if group != [] {
      hide Strategies.Decide, DeltaOrders, AllowedTargets;
      DecideKeepsBuffers(DecidePaperBar(p, cfg, v, group[0], wall), cfg, v, group[1..], wall);
    }
  }

  predicate AllInOrder(groups: seq<seq<Bar>>, cfg: PaperConfig, t: int)
    decreases |groups|
  {
    groups == [] || (InOrder(groups[0], cfg, t) && AllInOrder(groups[1..], cfg, groups[0][0].time))
  }

  /** The two engines agree after every group. */
  predicate SameAlong(p: Paper, q: Paper, cfg: PaperConfig, groups: seq<seq<Bar>>, wall: int)
    requires NonEmptyGroups(groups) && BundlesOk(cfg.bundles)
    decreases |groups|
  {
    groups == [] ||
    (var (p', ok) := ProcessGroup(p, cfg, groups[0], wall);
     var (q', ok') := ProcessGroup(q, cfg, groups[0], wall);
     ok == ok' && CoreOf(p') == CoreOf(q') && (ok ==> SameAlong(p', q', cfg, groups[1..], wall)))
  }

  predicate HaltsNeverMatter(p: Paper, q: Paper, cfg: PaperConfig, groups: seq<seq<Bar>>, wall: int)
    requires NonEmptyGroups(groups) && BundlesOk(cfg.bundles)
    decreases |groups|
  {
    groups == [] ||
    (OpensPositive(groups[0]) ==>
     HaltsDoNotMatter(p, q, cfg, groups[0], wall)
     && HaltsNeverMatter(ProcessGroup(p, cfg, groups[0], wall).0, ProcessGroup(q, cfg, groups[0], wall).0, cfg, groups[1..], wall))
  }

  /** Restart equivalence for the rest of the run: every later group leaves the two engines with the
      same cash, positions, cost basis, realized profit, counters, marks and, order ids aside, the
      same queue, if and only if halts never matter. */
  lemma {:induction false} RunResumesIff(p: Paper, q: Paper, cfg: PaperConfig, t: int, groups: seq<seq<Bar>>, wall: int)
    requires ConfigOk(cfg) && Resumed(p, q, cfg, t)
    requires NonEmptyGroups(groups) && AllInOrder(groups, cfg, t)
    ensures SameAlong(p, q, cfg, groups, wall) <==> HaltsNeverMatter(p, q, cfg, groups, wall)
    decreases |groups|
  {
    hide CoreOf, ProcessGroup, HaltsDoNotMatter, ConfigOk, InOrder, BuffersOk, SameTails, OpensPositive;
    ConfigBundles(cfg);
    if groups != [] {
      var (p', ok) := ProcessGroup(p, cfg, groups[0], wall);
      var (q', ok') := ProcessGroup(q, cfg, groups[0], wall);
      GroupResumesIff(p, q, cfg, t, groups[0], wall);
      if ok && CoreOf(p') == CoreOf(q') {
        RunResumesIff(p', q', cfg, groups[0][0].time, groups[1..], wall);
      }
    }
  }

  // ------------------------------------------------------------- in terms of the equity curves

  /** A group's close records the same equity in both engines. */
  lemma SamePoint(p: Paper, q: Paper, cfg: PaperConfig, group: seq<Bar>, wall: int)
    requires group != [] && CoreOf(p) == CoreOf(q)
    ensures var m, n := MarkedPaper(p, cfg, group, wall), MarkedPaper(q, cfg, group, wall);
      Equity(m.desk.account, m.desk.marks) == Equity(n.desk.account, n.desk.marks)
  {
    hide MarkedPaper, CoreOf, HeldValue;
    MarkedSame(p, q, cfg, group, wall);
    SameEssence(MarkedPaper(p, cfg, group, wall), MarkedPaper(q, cfg, group, wall));
  }

  lemma FinishKeepsCurve(p: Paper, cfg: PaperConfig, view: View, g: seq<Bar>, close: int, wall: int)
    requires BundlesOk(cfg.bundles)
    ensures var q := Finish(DecidePaper(p, cfg, view, g, wall), cfg, close, wall);
      q.desk.account.curve == p.desk.account.curve && q.kill == p.kill
  {
    hide DecidePaper;
    DecisionsReach(p, cfg, view, g, wall);
    FinishKeeps(DecidePaper(p, cfg, view, g, wall), cfg, close, wall);
  }

  /** Each completed group adds the same point to both equity curves. */
  lemma GroupAddsPoint(p: Paper, q: Paper, cfg: PaperConfig, g: seq<Bar>, wall: int)
    requires BundlesOk(cfg.bundles) && g != [] && OpensPositive(g) && CoreOf(p) == CoreOf(q)
    requires FollowsCurve(p, cfg) && FollowsCurve(q, cfg)
    ensures var p', q' := ProcessGroup(p, cfg, g, wall).0, ProcessGroup(q, cfg, g, wall).0;
      var n := MarkedPaper(q, cfg, g, wall);
      var point := EquityPoint(g[0].time + StepOf(cfg.interval), Equity(n.desk.account, n.desk.marks));
      && FollowsCurve(p', cfg) && FollowsCurve(q', cfg)
      && p'.desk.account.curve == p.desk.account.curve + [point] && q'.desk.account.curve == q.desk.account.curve + [point]
      && (DataStaleness in p'.kill <==> DataStaleness in p.kill) && (DataStaleness in q'.kill <==> DataStaleness in q.kill)
  {
    hide MarkedPaper, CoreOf, FollowsCurve, DecidePaper, PaperView, Finish, Equity, OpenPaper;
    var close := g[0].time + StepOf(cfg.interval);
    var m, n := MarkedPaper(p, cfg, g, wall), MarkedPaper(q, cfg, g, wall);
    MarkedFollows(p, cfg, g, wall);
    MarkedFollows(q, cfg, g, wall);
    SamePoint(p, q, cfg, g, wall);
    FinishKeepsCurve(m, cfg, PaperView(m, cfg, close), g, close, wall);
    FinishKeepsCurve(n, cfg, PaperView(n, cfg, close), g, close, wall);
    GroupFollows(p, cfg, g, wall);
    GroupFollows(q, cfg, g, wall);
  }

  lemma {:induction false} CurvesGrowAlike(p: Paper, q: Paper, cfg: PaperConfig, groups: seq<seq<Bar>>, wall: int)
    returns (added: seq<EquityPoint>)
    requires NonEmptyGroups(groups) && BundlesOk(cfg.bundles) && CoreOf(p) == CoreOf(q)
    requires FollowsCurve(p, cfg) && FollowsCurve(q, cfg)
    requires SameAlong(p, q, cfg, groups, wall) && ProcessGroups(p, cfg, groups, wall).1
    ensures var p', q' := ProcessGroups(p, cfg, groups, wall).0, ProcessGroups(q, cfg, groups, wall).0;
      && FollowsCurve(p', cfg) && FollowsCurve(q', cfg) && CoreOf(p') == CoreOf(q')
      && p'.desk.account.curve == p.desk.account.curve + added && q'.desk.account.curve == q.desk.account.curve + added
      && (DataStaleness in p'.kill <==> DataStaleness in p.kill) && (DataStaleness in q'.kill <==> DataStaleness in q.kill)
    decreases |groups|
  {
    hide ProcessGroup, CoreOf, FollowsCurve, MarkedPaper, Equity, OpensPositive, BundlesOk, StepOf;
    added := [];
    if groups != [] {
      var g := groups[0];
      CompletedOpens(p, cfg, g, wall);
      GroupAddsPoint(p, q, cfg, g, wall);
      var p', q' := ProcessGroup(p, cfg, g, wall).0, ProcessGroup(q, cfg, g, wall).0;
      var rest := CurvesGrowAlike(p', q', cfg, groups[1..], wall);
      var n := MarkedPaper(q, cfg, g, wall);
      var point := EquityPoint(g[0].time + StepOf(cfg.interval), Equity(n.desk.account, n.desk.marks));
      added := [point] + rest;
      AppendAssociates(p.desk.account.curve, [point], rest);
      AppendAssociates(q.desk.account.curve, [point], rest);
    }
  }

  // ------------------------------------------------------------- after a restart

  /** The engine at a group boundary, whatever life brought it there. */
  ghost predicate AtBoundary(p: Paper, cfg: PaperConfig, t: int) {
    && Journalled(p, cfg) && FollowsCurve(p, cfg) && BuffersOk(p.buffers, cfg, t)
    && p.saved == Some(StateFile(p, cfg)) && p.lastBarTime.Some? && p.prevClose.Some?
  }

  /** Any completed in-order group leads there. */
  lemma GroupReachesBoundary(p: Paper, cfg: PaperConfig, t: int, group: seq<Bar>, wall: int)
    requires ConfigOk(cfg) && Journalled(p, cfg) && FollowsCurve(p, cfg) && BuffersOk(p.buffers, cfg, t)
    requires InOrder(group, cfg, t) && OpensPositive(group)
    ensures AtBoundary(ProcessGroup(p, cfg, group, wall).0, cfg, group[0].time)
  {
    hide MarkedPaper, EnterBars, PaperView, BuffersOk, DecidePaper, Finish, StateFile, Journalled, FollowsCurve, ConfigOk, OpensPositive;
    ConfigBundles(cfg);
    var close := group[0].time + StepOf(cfg.interval);
    var m := MarkedPaper(p, cfg, group, wall);
    GroupKeeps(p, cfg, group, wall);
    GroupFollows(p, cfg, group, wall);
    GroupEndsAtBoundary(p, cfg, group, wall);
    BuffersStayOk(p.buffers, cfg, t, group);
    MarkedSame(p, p, cfg, group, wall);
    DecideKeepsBuffers(m, cfg, PaperView(m, cfg, close), group, wall);
    FinishKeeps(DecidePaper(m, cfg, PaperView(m, cfg, close), group, wall), cfg, close, wall);
  }

  /** The first group after a restart: the rebuilt engine does what its former self would have done
      if and only if that self was not halted at the close, or no armed decision wants a position. */
  lemma RestartedGroupIff(p: Paper, cfg: PaperConfig, t: int, group: seq<Bar>, wall: int)
    requires ConfigOk(cfg) && AtBoundary(p, cfg, t) && InOrder(group, cfg, t) && OpensPositive(group)
    ensures var q := Restart(cfg, p.journal, p.saved);
      var m := MarkedPaper(p, cfg, group, wall);
      var view := PaperView(m, cfg, group[0].time + StepOf(cfg.interval));
      CoreOf(ProcessGroup(p, cfg, group, wall).0) == CoreOf(ProcessGroup(q, cfg, group, wall).0)
      <==> !EngineHalted(m) || forall b :: b in group ==> !WantsPosition(m, cfg, view, b)
  {
    hide MarkedPaper, ProcessGroup, CoreOf, Restart, StateFile, FollowsCurve, BuffersOk, SameTails, Journalled, WantsPosition, EngineHalted, PaperView, LimitsOk;
    var q := Restart(cfg, p.journal, p.saved);
    RestartResumes(p, cfg, t);
    RestartFollows(cfg, p.journal, p.saved);
    FirstGroupUnhalted(q, cfg, group, wall);
    GroupResumesIff(p, q, cfg, t, group, wall);
  }

  /** Later groups: while the two have stayed the same, the rebuilt engine is halted at a close
      exactly when equity since the restart has fallen past a limit; its former self exactly when it
      was stale at the restart or its longer curve has. */
  lemma LaterHalts(p: Paper, cfg: PaperConfig, t: int, groups: seq<seq<Bar>>, g: seq<Bar>, wall: int)
    requires ConfigOk(cfg) && AtBoundary(p, cfg, t) && g != []
    requires NonEmptyGroups(groups) && AllInOrder(groups, cfg, t) && ProcessGroups(p, cfg, groups, wall).1
    requires HaltsNeverMatter(p, Restart(cfg, p.journal, p.saved), cfg, groups, wall)
    ensures var q := Restart(cfg, p.journal, p.saved);
      var p', q' := ProcessGroups(p, cfg, groups, wall).0, ProcessGroups(q, cfg, groups, wall).0;
      var m, n := MarkedPaper(p', cfg, g, wall), MarkedPaper(q', cfg, g, wall);
      var since := q'.desk.account.curve + [EquityPoint(g[0].time + StepOf(cfg.interval), Equity(n.desk.account, n.desk.marks))];
      && (EngineHalted(n) <==> Fallen(cfg.rules, since))
      && (EngineHalted(m) <==> DataStaleness in p.kill || Fallen(cfg.rules, p.desk.account.curve + since))
  {
    hide MarkedPaper, ProcessGroups, CoreOf, Restart, StateFile, FollowsCurve, BuffersOk, SameTails, Journalled, EngineHalted, Fallen, LimitsOk, SameAlong, HaltsNeverMatter, Equity;
    var q := Restart(cfg, p.journal, p.saved);
    RestartResumes(p, cfg, t);
    RestartFollows(cfg, p.journal, p.saved);
    RunResumesIff(p, q, cfg, t, groups, wall);
    ConfigBundles(cfg);
    var added := CurvesGrowAlike(p, q, cfg, groups, wall);
    var p', q' := ProcessGroups(p, cfg, groups, wall).0, ProcessGroups(q, cfg, groups, wall).0;
    SamePoint(p', q', cfg, g, wall);
    HaltedAtClose(p', cfg, g, wall);
    HaltedAtClose(q', cfg, g, wall);
    var n := MarkedPaper(q', cfg, g, wall);
    var point := EquityPoint(g[0].time + StepOf(cfg.interval), Equity(n.desk.account, n.desk.marks));
    assert q'.desk.account.curve == added by { assert [] + added == added; }
    assert (p.desk.account.curve + added) + [point] == p.desk.account.curve + (added + [point]);
  }
}
