/** A crash inside a bar group and the restart after it (paper/engine.py `process_bar_group`,
    `_restore_state`): the books come back, the queue comes back as the previous group saved it. */
module PaperCrash {
  import opened Collections
  import opened Market
  import opened Source
  import opened Venue
  import opened Risk
  import opened Desk
  import opened Backtest
  import opened Strategies
  import opened Commitment
  import opened PaperState
  import opened PaperRefinement
  import opened PaperRecovery
  import opened PaperHalts
  import opened PaperOrders

  /** What is still to be filled when the engine dies: its queue, and the orders the bar being
      opened has taken from it but not settled. */
  function Outstanding(p: Paper, cfg: PaperConfig, group: seq<Bar>, wall: int, at: CrashPoint): seq<Order>
    requires group != [] && BundlesOk(cfg.bundles) && Reached(p, cfg, group, wall, at)
  {
    (if at.Filling? then Hits(p, cfg, group, at.bars, wall)[at.fills..] else [])
    + CrashedAt(p, cfg, group, wall, at).desk.pending
  }

  /** Nothing queued was for a bar opened so far, and no decision so far called for an order. */
  predicate QueueUntouched(p: Paper, cfg: PaperConfig, group: seq<Bar>, wall: int, at: CrashPoint)
    requires group != [] && BundlesOk(cfg.bundles) && Reached(p, cfg, group, wall, at)
  {
    match at
    case Opening(n) => forall o :: o in p.desk.pending ==> !HasSymbol(group[..n], o.symbol)
    case Filling(n, k) => false
    case Deciding(n) =>
      var m := MarkedPaper(p, cfg, group, wall);
      var view := PaperView(m, cfg, group[0].time + StepOf(cfg.interval));
      && (forall o :: o in p.desk.pending ==> !HasSymbol(group, o.symbol))
      && (forall b :: b in group[..n] ==> !Queues(m, cfg, view, b))
  }

  // ------------------------------------------------------------- the three kinds of crash point

  lemma OpenedQueue(p: Paper, cfg: PaperConfig, group: seq<Bar>, n: nat, wall: int)
    requires group != [] && n <= |group| && OpensPositive(group[..n])
    ensures OpenedTo(p, cfg, group, n, wall).desk.pending == Filter(p.desk.pending, NotIn(group[..n]))
    ensures OpenedTo(p, cfg, group, n, wall).saved == p.saved
  {
    hide OpenPaper, EnterBars, OpenGroup, OpensPositive;
    OpenPaperDesk(Arrived(p, group), cfg, group[..n], wall);
    OpenDrains(p.desk, cfg.rules.costs, group[..n]);
  }

  lemma DrainedIff(pending: seq<Order>, g: seq<Bar>)
    ensures Filter(pending, NotIn(g)) == pending <==> forall o :: o in pending ==> !HasSymbol(g, o.symbol)
  {
    DrainsNothing(pending, g);
    if |Filter(pending, NotIn(g))| == |pending| {
      FilterSameLength(pending, NotIn(g));
    }
  }

  /** A bar that has settled a fill leaves fewer orders outstanding than were queued. */
  lemma FillingLoses(p: Paper, cfg: PaperConfig, group: seq<Bar>, wall: int, at: CrashPoint)
    requires group != [] && BundlesOk(cfg.bundles) && Reached(p, cfg, group, wall, at) && at.Filling?
    ensures |Outstanding(p, cfg, group, wall, at)| < |p.desk.pending|
    ensures CrashedAt(p, cfg, group, wall, at).saved == p.saved
  {
    hide FillsOf, NotIn, Filter, OpensPositive, OpenPaper;
    var n, symbol := at.bars, group[at.bars].symbol;
    var before := OpenedTo(p, cfg, group, n, wall);
    assert OpensPositive(group[..n]) by { PositivePrefix(group, n); }
    OpenedQueue(p, cfg, group, n, wall);
    SplitCounts(before.desk.pending, symbol);
    var fills := FillsOf(cfg.rules.costs, Hits(p, cfg, group, n, wall), group[n].open, group[n].time);
    SettleFillsDesk(before.(desk := before.desk.(pending := Filter(before.desk.pending, OrderNotFor(symbol)))),
                    fills[..at.fills], wall);
  }

  lemma PositivePrefix(group: seq<Bar>, n: nat)
    requires n < |group| && OpensPositive(group[..n + 1])
    ensures OpensPositive(group[..n])
  {
    assert forall b :: b in group[..n] ==> b in group[..n + 1];
  }

  lemma DecidedQueue(p: Paper, cfg: PaperConfig, group: seq<Bar>, n: nat, wall: int)
    requires group != [] && n <= |group| && OpensPositive(group) && BundlesOk(cfg.bundles)
    ensures var m := MarkedPaper(p, cfg, group, wall);
      var close := group[0].time + StepOf(cfg.interval);
      var queue := CrashedAt(p, cfg, group, wall, Deciding(n)).desk.pending;
      var kept := Filter(p.desk.pending, NotIn(group));
      && |queue| == |kept| + Queued(m, cfg, PaperView(m, cfg, close), group[..n])
      && queue[..|kept|] == kept
      && (forall i :: |kept| <= i < |queue| ==> queue[i].submitTime == close)
    ensures CrashedAt(p, cfg, group, wall, Deciding(n)).saved == p.saved
  {
    hide MarkedPaper, CloseStep, DecidePaper, Queued, NotIn;
    var m := MarkedPaper(p, cfg, group, wall);
    var view := PaperView(m, cfg, group[0].time + StepOf(cfg.interval));
    MarkedQueue(p, cfg, group, wall);
    DecisionsQueue(m, m, cfg, view, group[..n], wall);
    DecisionsReach(m, cfg, view, group[..n], wall);
  }

  lemma MarkedQueue(p: Paper, cfg: PaperConfig, group: seq<Bar>, wall: int)
    requires group != [] && OpensPositive(group)
    ensures MarkedPaper(p, cfg, group, wall).desk.pending == Filter(p.desk.pending, NotIn(group))
    ensures MarkedPaper(p, cfg, group, wall).saved == p.saved
  {
    hide SyncHalts, OpenGroup, OpenPaper, EnterBars, RiskUpdate, MarkGroup;
    assert group[..|group|] == group;
    OpenedQueue(p, cfg, group, |group|, wall);
    var filled := OpenPaper(Arrived(p, group), cfg, group, wall);
    SyncMirrorsRisk(filled.(desk := CloseGroup(filled.desk, cfg.rules, group, group[0].time + StepOf(cfg.interval))), wall);
  }

  // ------------------------------------------------------------- the law

  lemma OutstandingIff(p: Paper, cfg: PaperConfig, group: seq<Bar>, wall: int, at: CrashPoint)
    requires group != [] && BundlesOk(cfg.bundles) && Reached(p, cfg, group, wall, at)
    requires forall o :: o in p.desk.pending ==> o.submitTime < group[0].time + StepOf(cfg.interval)
    ensures Outstanding(p, cfg, group, wall, at) == p.desk.pending <==> QueueUntouched(p, cfg, group, wall, at)
    ensures CrashedAt(p, cfg, group, wall, at).saved == p.saved
  {
    hide OpenPaper, MarkedPaper, CrashedAt, NotIn, Filter, PaperView, Queues, OpensPositive, EnterBars, HasSymbol;
    match at
    case Opening(n) =>
      OpeningIff(p, cfg, group, n, wall);
    case Filling(n, k) =>
      FillingLoses(p, cfg, group, wall, at);
    case Deciding(n) =>
      DecidingIff(p, cfg, group, n, wall);
  }

  lemma OpeningIff(p: Paper, cfg: PaperConfig, group: seq<Bar>, n: nat, wall: int)
    requires group != [] && BundlesOk(cfg.bundles) && Reached(p, cfg, group, wall, Opening(n))
    ensures Outstanding(p, cfg, group, wall, Opening(n)) == p.desk.pending
      <==> forall o :: o in p.desk.pending ==> !HasSymbol(group[..n], o.symbol)
    ensures CrashedAt(p, cfg, group, wall, Opening(n)).saved == p.saved
  {
    hide OpenPaper, NotIn, Filter, OpensPositive, EnterBars, HasSymbol;
    OpenedQueue(p, cfg, group, n, wall);
    DrainedIff(p.desk.pending, group[..n]);
    var queue := OpenedTo(p, cfg, group, n, wall).desk.pending;
    assert [] + queue == queue;
  }

  /** A queue that kept some orders and gained newer ones is the old queue exactly when it kept
      all and gained none. */
  lemma SameQueueIff(queue: seq<Order>, kept: seq<Order>, pending: seq<Order>, close: int)
    requires |kept| <= |queue| && queue[..|kept|] == kept
    requires forall i :: |kept| <= i < |queue| ==> queue[i].submitTime == close
    requires forall o :: o in pending ==> o.submitTime < close
    ensures queue == pending <==> |queue| == |kept| && kept == pending
  {
    if |queue| > |kept| {
      var newest := queue[|queue| - 1];
      assert newest in queue && newest !in pending;
    } else {
      assert queue == queue[..|kept|];
    }
  }

  lemma DecidingIff(p: Paper, cfg: PaperConfig, group: seq<Bar>, n: nat, wall: int)
    requires group != [] && BundlesOk(cfg.bundles) && Reached(p, cfg, group, wall, Deciding(n))
    requires forall o :: o in p.desk.pending ==> o.submitTime < group[0].time + StepOf(cfg.interval)
    ensures Outstanding(p, cfg, group, wall, Deciding(n)) == p.desk.pending
      <==> QueueUntouched(p, cfg, group, wall, Deciding(n))
    ensures CrashedAt(p, cfg, group, wall, Deciding(n)).saved == p.saved
  {
    hide MarkedPaper, NotIn, Filter, PaperView, Queues, Queued, HasSymbol, CrashedAt, OpensPositive, BundlesOk, StepOf;
    var m := MarkedPaper(p, cfg, group, wall);
    var close := group[0].time + StepOf(cfg.interval);
    DecidedQueue(p, cfg, group, n, wall);
    QueuedNothingIff(m, cfg, PaperView(m, cfg, close), group[..n]);
    DrainedIff(p.desk.pending, group);
    var queue := CrashedAt(p, cfg, group, wall, Deciding(n)).desk.pending;
    SameQueueIff(queue, Filter(p.desk.pending, NotIn(group)), p.desk.pending, close);
    assert [] + queue == queue;
  }

  /** The queue in the state file, or none before the first one is written. */
  function SavedQueue(p: Paper): seq<Order> {
    if p.saved.Some? then p.saved.value.pending else []
  }

  /** The newest bars of each buffer, as the state file keeps them. */
  ghost predicate TailsOf(q: Paper, p: Paper, cfg: PaperConfig) {
    forall s :: s in cfg.symbols && s in cfg.bundles ==> BufferOf(q.buffers, s) == LastN(BufferOf(p.buffers, s), Keep(cfg, s))
  }

  /** Crash anywhere inside a group, before its state is written, then restart: every journalled
      fill and decision is back in the books; marks, times, buffers and queue are those the
      previous group saved, so the group's own bars are gone and the clock is where it was before
      them. The queue is what was still to be filled if and only if no queued order was for a bar
      opened so far and no decision so far called for an order: otherwise filled orders are queued
      again, or queued ones lost. */
  lemma CrashInsideGroup(p: Paper, cfg: PaperConfig, group: seq<Bar>, wall: int, at: CrashPoint)
    requires group != [] && BundlesOk(cfg.bundles) && Journalled(p, cfg) && SavedQueue(p) == p.desk.pending
    requires Reached(p, cfg, group, wall, at)
    requires forall o :: o in p.desk.pending ==> o.submitTime < group[0].time + StepOf(cfg.interval)
    ensures var q := AfterCrash(p, cfg, group, wall, at);
      && EssenceOf(q) == EssenceOf(CrashedAt(p, cfg, group, wall, at)) && q.desk.pending == p.desk.pending
      && (q.desk.pending == Outstanding(p, cfg, group, wall, at) <==> QueueUntouched(p, cfg, group, wall, at))
      && (p.saved == Some(StateFile(p, cfg)) && p.lastBarTime.Some? && p.prevClose.Some? ==>
            && q.desk.marks == p.desk.marks && q.lastBarTime == p.lastBarTime && q.prevClose == p.prevClose
            && TailsOf(q, p, cfg))
      && (p.saved.None? ==> q.desk.marks == map[] && q.lastBarTime.None? && q.prevClose.None?
                            && forall s :: BufferOf(q.buffers, s) == [])
  {
    hide CrashedAt, Reached, QueueUntouched, Outstanding, Restart, TailsOf, BufferOf;
    var crashed := CrashedAt(p, cfg, group, wall, at);
    CrashKeeps(p, cfg, group, wall, at);
    OutstandingIff(p, cfg, group, wall, at);
    RestartBringsBack(crashed, p, cfg);
  }

  /** Every queued order was submitted at a group's close, the last one at the latest. */
  ghost predicate Dated(p: Paper) {
    forall o :: o in p.desk.pending ==> p.prevClose.Some? && o.submitTime <= p.prevClose.value
  }

  /** Groups in time order keep the queue so dated; a later group's close is then after them all. */
  lemma GroupKeepsDates(p: Paper, cfg: PaperConfig, group: seq<Bar>, wall: int)
    requires group != [] && BundlesOk(cfg.bundles) && OpensPositive(group) && Dated(p)
    requires p.prevClose.Some? ==> p.prevClose.value <= group[0].time + StepOf(cfg.interval)
    ensures Dated(ProcessGroup(p, cfg, group, wall).0)
  {
    hide MarkedPaper, DecidePaper, PaperView, NotIn, Queued, Reports;
    var close := group[0].time + StepOf(cfg.interval);
    var m := MarkedPaper(p, cfg, group, wall);
    DecidedQueue(p, cfg, group, |group|, wall);
    assert group[..|group|] == group;
    var decided := DecidePaper(m, cfg, PaperView(m, cfg, close), group, wall);
    FinishKeeps(decided, cfg, close, wall);
    var kept := Filter(p.desk.pending, NotIn(group));
    forall o | o in decided.desk.pending ensures o.submitTime <= close {
      var i :| 0 <= i < |decided.desk.pending| && decided.desk.pending[i] == o;
      if i < |kept| {
        assert decided.desk.pending[..|kept|][i] == o && o in kept;
      }
    }
  }

  lemma BoundaryQueueSaved(p: Paper, cfg: PaperConfig)
    requires p.saved == Some(StateFile(p, cfg))
    ensures SavedQueue(p) == p.desk.pending
  {
  }

  lemma RestartBringsBack(crashed: Paper, p: Paper, cfg: PaperConfig)
    requires Journalled(crashed, cfg) && crashed.saved == p.saved && SavedQueue(p) == p.desk.pending
    ensures var q := Restart(cfg, crashed.journal, crashed.saved);
      && EssenceOf(q) == EssenceOf(crashed) && q.desk.pending == p.desk.pending
      && (p.saved == Some(StateFile(p, cfg)) && p.lastBarTime.Some? && p.prevClose.Some? ==>
            && q.desk.marks == p.desk.marks && q.lastBarTime == p.lastBarTime && q.prevClose == p.prevClose
            && TailsOf(q, p, cfg))
      && (p.saved.None? ==> q.desk.marks == map[] && q.lastBarTime.None? && q.prevClose.None?
                            && forall s :: BufferOf(q.buffers, s) == [])
  {
    hide RecallAll, RememberAll, Keep, LastN;
    RecallIsRemember(NewPaper(cfg), crashed.journal);
    assert [] + p.desk.pending == p.desk.pending;
  }
}
