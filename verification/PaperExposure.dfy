/** What a halt of the paper engine promises: no position grows and none changes sign while it lasts
    (runtime/kill_switch.py, paper/engine.py `_handle_decision`). Groups may hold any number of bars
    of a symbol. */
module PaperExposure {
  import opened Collections
  import opened Market
  import opened Timeline
  import opened Source
  import opened Oms
  import opened Risk
  import opened Desk
  import opened Backtest
  import opened Commitment
  import opened Tracking
  import opened Exposure
  import opened Strategies
  import opened PaperState
  import opened PaperRefinement
  import opened PaperHalts
  import opened PaperOrders

  /** How many of the bars are the symbol's and queue an order. */
  function QueuedFor(m: Paper, cfg: PaperConfig, view: View, bars: seq<Bar>, s: string): nat
    requires BundlesOk(cfg.bundles)
  {
    if bars == [] then 0
    else (if bars[0].symbol == s && Queues(m, cfg, view, bars[0]) then 1 else 0) + QueuedFor(m, cfg, view, bars[1..], s)
  }

  /** How often a group's decisions flatten the symbol, judged at the group's close. */
  function Flattenings(p: Paper, cfg: PaperConfig, g: seq<Bar>, wall: int, s: string): nat
    requires g != [] && BundlesOk(cfg.bundles)
  {
    var m := MarkedPaper(p, cfg, g, wall);
    QueuedFor(m, cfg, PaperView(m, cfg, g[0].time + StepOf(cfg.interval)), g, s)
  }

  /** One decision of a halted engine flattens its own symbol or changes no commitment. */
  lemma HaltedDecisionCommits(m: Paper, p: Paper, cfg: PaperConfig, view: View, b: Bar, wall: int, s: string)
    requires BundlesOk(cfg.bundles) && EngineHalted(m) && SameStanding(m.desk, p.desk) && p.kill == m.kill
    ensures var q := DecidePaperBar(p, cfg, view, b, wall);
      && Held(q.desk, s) == Held(p.desk, s)
      && Committed(q.desk, s) == Committed(p.desk, s)
         + (if b.symbol == s && Queues(m, cfg, view, b) then -Held(m.desk, s) else 0.0)
  {
    hide Strategies.Decide, DeltaOrders, AllowedTargets, IsHalted, Filter, QueueTargets;
    if cfg.armed && b.symbol in cfg.bundles {
      match RawDecision(m, cfg, view, b)
      case Warmup =>
      case Decided(_, _, _, _, qty) =>
        var t := Target(b.symbol, qty);
        PassedTargets(p, t);
        NothingQueued(p.desk, view.now);
        QueueCommits(p.desk, [t], view.now, s);
        assert [t][1..] == [];
    }
  }

  lemma {:induction false} HaltedDecisionsCommit(
      m: Paper, p: Paper, cfg: PaperConfig, view: View, bars: seq<Bar>, wall: int, s: string)
    requires BundlesOk(cfg.bundles) && EngineHalted(m) && SameStanding(m.desk, p.desk) && p.kill == m.kill
    ensures var q := DecidePaper(p, cfg, view, bars, wall);
      && Held(q.desk, s) == Held(p.desk, s)
      && Committed(q.desk, s) == Committed(p.desk, s) + Times(QueuedFor(m, cfg, view, bars, s), -Held(m.desk, s))
    ensures !HasSymbol(bars, s) ==> QueuedFor(m, cfg, view, bars, s) == 0
    decreases |bars|
  {
    hide DecidePaperBar, Queues, EngineHalted, Held, Committed, HasSymbol;
    if bars != [] {
      HaltedDecisionCommits(m, p, cfg, view, bars[0], wall, s);
      DecisionReach(p, cfg, view, bars[0], wall);
      HasSymbolStep(bars, s);
      HaltedDecisionsCommit(m, DecidePaperBar(p, cfg, view, bars[0], wall), cfg, view, bars[1..], wall, s);
    }
  }

  /** A halted group that carries the symbol fills whatever was queued for it, and commits it to be
      flattened as often as it is named; one that does not leaves it alone. */
  lemma HaltedGroupCommits(p: Paper, cfg: PaperConfig, g: seq<Bar>, wall: int, s: string)
    requires BundlesOk(cfg.bundles) && g != [] && OpensPositive(g) && EngineHalted(MarkedPaper(p, cfg, g, wall))
    ensures var d := ProcessGroup(p, cfg, g, wall).0.desk;
      var n := Flattenings(p, cfg, g, wall, s);
      if HasSymbol(g, s) then Held(d, s) == Committed(p.desk, s) && Committed(d, s) == Held(d, s) + Times(n, -Held(d, s))
      else n == 0 && Held(d, s) == Held(p.desk, s) && Committed(d, s) == Committed(p.desk, s)
  {
    hide MarkedPaper, CloseStep, OpenGroup, DecidePaper, Mine, Held, EngineHalted, PaperView, StateFile, Reports, QueuedFor;
    var w := WorldOf(cfg, []);
    var close := g[0].time + StepOf(cfg.interval);
    var m := MarkedPaper(p, cfg, g, wall);
    MarkedDesk(p, cfg, g, wall);
    OpenSettles(p.desk, w.rules.costs, g, s);
    CloseKeepsQueue(w, p.desk, g, s);
    assert Net([]) == 0.0;
    HaltedDecisionsCommit(m, m, cfg, PaperView(m, cfg, close), g, wall, s);
    FinishKeeps(DecidePaper(m, cfg, PaperView(m, cfg, close), g, wall), cfg, close, wall);
  }

  // ------------------------------------------------------------- the exact law

  /** No group of the stretch makes the position grow or change sign. */
  predicate EngineNeverOpens(p: Paper, cfg: PaperConfig, groups: seq<seq<Bar>>, wall: int, s: string)
    requires NonEmptyGroups(groups) && BundlesOk(cfg.bundles)
    decreases |groups|
  {
    groups == [] ||
    (var q := ProcessGroup(p, cfg, groups[0], wall).0;
     Shrinks(Held(p.desk, s), Held(q.desk, s)) && EngineNeverOpens(q, cfg, groups[1..], wall, s))
  }

  /** No group flattens the symbol twice and is followed by one that fills both orders. */
  predicate EngineFlattensOnce(p: Paper, cfg: PaperConfig, groups: seq<seq<Bar>>, wall: int, s: string)
    requires NonEmptyGroups(groups) && BundlesOk(cfg.bundles)
    decreases |groups|
  {
    groups == [] ||
    (var q := ProcessGroup(p, cfg, groups[0], wall).0;
     (Flattenings(p, cfg, groups[0], wall, s) <= 1 || Held(q.desk, s) == 0.0 || !Carried(groups[1..], s))
     && EngineFlattensOnce(q, cfg, groups[1..], wall, s))
  }

  /** "Any active reason means no new positions", exactly: over any halted groups no position grows
      or changes sign if and only if no group will fill what was queued for it or filling it would
      not have made it grow or change sign, and no group flattens it twice. */
  lemma {:induction false} HaltedNeverOpensIff(p: Paper, cfg: PaperConfig, groups: seq<seq<Bar>>, wall: int, s: string)
    requires BundlesOk(cfg.bundles) && NonEmptyGroups(groups)
    requires HaltedAlong(p, cfg, groups, wall) && ProcessGroups(p, cfg, groups, wall).1
    ensures EngineNeverOpens(p, cfg, groups, wall, s)
      <==> QueueShrinks(p.desk, groups, s) && EngineFlattensOnce(p, cfg, groups, wall, s)
    decreases |groups|
  {
    hide ProcessGroup, MarkedPaper, EngineHalted, Held, Committed, Flattenings, HasSymbol, OpensPositive;
    if groups != [] {
      CompletedOpens(p, cfg, groups[0], wall);
      var q := ProcessGroup(p, cfg, groups[0], wall).0;
      HaltedGroupCommits(p, cfg, groups[0], wall, s);
      HaltedNeverOpensIff(q, cfg, groups[1..], wall, s);
      if HasSymbol(groups[0], s) {
        FlattenedShrinksIff(Held(q.desk, s), Flattenings(p, cfg, groups[0], wall, s));
      }
    }
  }

  lemma {:induction false} SingleBarQueuesOnce(m: Paper, cfg: PaperConfig, view: View, bars: seq<Bar>, s: string)
    requires BundlesOk(cfg.bundles) && OneBarPerSymbol(bars)
    ensures QueuedFor(m, cfg, view, bars, s) <= 1
    ensures !HasSymbol(bars, s) ==> QueuedFor(m, cfg, view, bars, s) == 0
  {
    hide Queues, HasSymbol;
    if bars != [] {
      HasSymbolStep(bars, s);
      if bars[0].symbol == s {
        OwnBarIsOnly(bars);
      }
      SingleBarQueuesOnce(m, cfg, view, bars[1..], s);
    }
  }

  lemma {:induction false} SingleBarsFlattenOnce(p: Paper, cfg: PaperConfig, groups: seq<seq<Bar>>, wall: int, s: string)
    requires BundlesOk(cfg.bundles) && NonEmptyGroups(groups) && SingleBars(groups)
    ensures EngineFlattensOnce(p, cfg, groups, wall, s)
    decreases |groups|
  {
    hide ProcessGroup, MarkedPaper, Held, QueuedFor, PaperView;
    if groups != [] {
      var g := groups[0];
      var m := MarkedPaper(p, cfg, g, wall);
      SingleBarQueuesOnce(m, cfg, PaperView(m, cfg, g[0].time + StepOf(cfg.interval)), g, s);
      SingleBarsFlattenOnce(ProcessGroup(p, cfg, g, wall).0, cfg, groups[1..], wall, s);
    }
  }

  /** With one bar per symbol in a group, the condition is on the queue alone. */
  lemma HaltedQueueDecides(p: Paper, cfg: PaperConfig, groups: seq<seq<Bar>>, wall: int, s: string)
    requires BundlesOk(cfg.bundles) && NonEmptyGroups(groups) && SingleBars(groups)
    requires HaltedAlong(p, cfg, groups, wall) && ProcessGroups(p, cfg, groups, wall).1
    ensures EngineNeverOpens(p, cfg, groups, wall, s)
      <==> !Carried(groups, s) || Shrinks(Held(p.desk, s), Committed(p.desk, s))
  {
    hide ProcessGroup, MarkedPaper, Held, Committed, EngineNeverOpens, EngineFlattensOnce, HaltedAlong;
    HaltedNeverOpensIff(p, cfg, groups, wall, s);
    SingleBarsFlattenOnce(p, cfg, groups, wall, s);
  }

  /** Two bars of one symbol in a halted group, both decided flat: the next bar of the symbol turns
      the position round. */
  lemma FlattenedTwiceReverses(p: Paper, cfg: PaperConfig, g: seq<Bar>, next: seq<Bar>, wall: int, s: string)
    requires BundlesOk(cfg.bundles) && g != [] && OpensPositive(g) && next != [] && OpensPositive(next)
    requires HasSymbol(g, s) && HasSymbol(next, s) && Flattenings(p, cfg, g, wall, s) == 2
    requires EngineHalted(MarkedPaper(p, cfg, g, wall))
    requires EngineHalted(MarkedPaper(ProcessGroup(p, cfg, g, wall).0, cfg, next, wall))
    ensures var q := ProcessGroup(p, cfg, g, wall).0;
      Held(ProcessGroup(q, cfg, next, wall).0.desk, s) == -Held(q.desk, s)
  {
    hide ProcessGroup, MarkedPaper, EngineHalted, Held, Committed, Flattenings, HasSymbol, OpensPositive;
    var q := ProcessGroup(p, cfg, g, wall).0;
    HaltedGroupCommits(p, cfg, g, wall, s);
    HaltedGroupCommits(q, cfg, next, wall, s);
    assert Times(1, -Held(q.desk, s)) == -Held(q.desk, s);
  }
}
