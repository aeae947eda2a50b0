/** Which decisions of a group queue an order, told before any of them is taken: decisions leave
    cash, positions, marks and halts alone, so each can be judged in the state the close left
    (paper/engine.py `_handle_decision`). */
module PaperOrders {
  import opened Collections
  import opened Market
  import opened Source
  import opened Oms
  import opened Risk
  import opened Desk
  import opened Commitment
  import opened Tracking
  import opened Strategies
  import opened PaperState
  import opened PaperRefinement
  import opened PaperHalts

  function RawDecision(m: Paper, cfg: PaperConfig, view: View, b: Bar): Decision
    requires BundlesOk(cfg.bundles) && b.symbol in cfg.bundles
  {
    Strategies.Decide(cfg.bundles[b.symbol], b, view, TakeSnapshot(m.desk.account, m.desk.marks))
  }

  /** An armed decision whose target is more than dust away from the holding. */
  predicate Wants(m: Paper, cfg: PaperConfig, view: View, b: Bar)
    requires BundlesOk(cfg.bundles)
  {
    cfg.armed && b.symbol in cfg.bundles &&
    (var d := RawDecision(m, cfg, view, b);
     d.Decided? && Abs(d.targetQty - Held(m.desk, b.symbol)) >= MIN_DELTA_QTY)
  }

  /** Such a decision toward anything but flat: what a halt blocks. */
  predicate WantsPosition(m: Paper, cfg: PaperConfig, view: View, b: Bar)
    requires BundlesOk(cfg.bundles)
  {
    Wants(m, cfg, view, b) && RawDecision(m, cfg, view, b).targetQty != 0.0
  }

  predicate Queues(m: Paper, cfg: PaperConfig, view: View, b: Bar)
    requires BundlesOk(cfg.bundles)
  {
    Wants(m, cfg, view, b) && !(EngineHalted(m) && WantsPosition(m, cfg, view, b))
  }

  function Queued(m: Paper, cfg: PaperConfig, view: View, bars: seq<Bar>): nat
    requires BundlesOk(cfg.bundles)
  {
    if bars == [] then 0 else (if Queues(m, cfg, view, bars[0]) then 1 else 0) + Queued(m, cfg, view, bars[1..])
  }

  lemma {:induction false} QueuedNothingIff(m: Paper, cfg: PaperConfig, view: View, bars: seq<Bar>)
    requires BundlesOk(cfg.bundles)
    ensures Queued(m, cfg, view, bars) == 0 <==> forall b :: b in bars ==> !Queues(m, cfg, view, b)
  {
    if bars != [] {
      hide Queues;
      QueuedNothingIff(m, cfg, view, bars[1..]);
      assert forall b :: b in bars <==> b == bars[0] || b in bars[1..];
    }
  }

  /** A single target that passes the gate queues one order, or none when its gap is dust. */
  lemma OneOrder(d: Desk, t: Target, submitTime: int)
    ensures var d' := QueueTargets(d, [t], submitTime);
      if Abs(t.qty - Held(d, t.symbol)) < MIN_DELTA_QTY then d' == d
      else |d'.pending| == |d.pending| + 1 && d'.pending[..|d.pending|] == d.pending
           && d'.pending[|d.pending|].submitTime == submitTime
  {
    SingleDeltaOrder(d.account.book, t, submitTime, d.account.orderSeq);
    assert d.pending + [] == d.pending;
  }

  lemma PassedTargets(p: Paper, t: Target)
    ensures AllowedTargets(p, t) == if EngineHalted(p) && t.qty != 0.0 then [] else [t]
  {
    if EngineHalted(p) {
      assert [t][1..] == [];
      assert Filter([t], IsFlat()) == if t.qty == 0.0 then [t] else [];
      if t.qty != 0.0 && IsHalted(p.desk.risk) {
        assert Filter([], IsFlat()) == [];
      }
    }
  }

  /** One decision, taken anywhere among the group's decisions: one more order exactly when it was
      to be expected after the close. */
  lemma DecisionQueues(m: Paper, p: Paper, cfg: PaperConfig, view: View, b: Bar, wall: int)
    requires BundlesOk(cfg.bundles) && SameStanding(m.desk, p.desk) && p.kill == m.kill
    ensures var q := DecidePaperBar(p, cfg, view, b, wall);
      if Queues(m, cfg, view, b)
      then |q.desk.pending| == |p.desk.pending| + 1 && q.desk.pending[..|p.desk.pending|] == p.desk.pending
           && q.desk.pending[|p.desk.pending|].submitTime == view.now
      else q.desk.pending == p.desk.pending
  {
    hide Strategies.Decide, DeltaOrders, AllowedTargets, IsHalted;
    if cfg.armed && b.symbol in cfg.bundles {
      match RawDecision(m, cfg, view, b)
      case Warmup =>
      case Decided(_, _, _, _, qty) =>
        var t := Target(b.symbol, qty);
        PassedTargets(p, t);
        OneOrder(p.desk, t, view.now);
        NothingQueued(p.desk, view.now);
    }
  }

  ghost predicate ToldAs(p: Paper, q: Paper, wall: int, e: Event) {
    && q.nDecisions == p.nDecisions + 1
    && q.journal == p.journal + [Entry(wall, e)]
  }

  lemma DecisionLine(p: Paper, cfg: PaperConfig, view: View, b: Bar, wall: int)
    requires BundlesOk(cfg.bundles) && b.symbol in cfg.bundles
    ensures var q := DecidePaperBar(p, cfg, view, b, wall);
      var raw := RawDecision(p, cfg, view, b);
      ToldAs(p, q, wall, DecisionEvent(b.symbol, raw, EngineHalted(p),
        if raw.Warmup? then WarmingUp
        else if !cfg.armed then ObserveOnly
        else if |q.desk.pending| > |p.desk.pending| then OrderQueued
        else Hold))
  {
    hide Strategies.Decide, DeltaOrders, AllowedTargets, EngineHalted;
  }

  /** The line a decision leaves in the journal: the decision, whether it was taken under a halt, and
      what came of it; every bar of a traded symbol leaves one and is counted. */
  lemma DecisionIsTold(p: Paper, cfg: PaperConfig, view: View, b: Bar, wall: int)
    requires BundlesOk(cfg.bundles)
    ensures var q := DecidePaperBar(p, cfg, view, b, wall);
      if b.symbol !in cfg.bundles then q == p
      else
        var raw := RawDecision(p, cfg, view, b);
        ToldAs(p, q, wall, DecisionEvent(b.symbol, raw, p.kill != {} || Halted(p.desk.risk) != {},
          if raw.Warmup? then WarmingUp
          else if !cfg.armed then ObserveOnly
          else if Queues(p, cfg, view, b) then OrderQueued
          else Hold))
  {
    if b.symbol in cfg.bundles {
      hide Strategies.Decide, DeltaOrders, AllowedTargets, IsHalted, Halted, DecidePaperBar, Queues, ToldAs;
      HaltedIff(p.desk.risk);
      DecisionLine(p, cfg, view, b, wall);
      DecisionQueues(p, p, cfg, view, b, wall);
      QueuesWants(p, cfg, view, b);
    }
  }

  lemma QueuesWants(m: Paper, cfg: PaperConfig, view: View, b: Bar)
    requires BundlesOk(cfg.bundles)
    ensures Queues(m, cfg, view, b) ==> cfg.armed && b.symbol in cfg.bundles && RawDecision(m, cfg, view, b).Decided?
  {
    hide Strategies.Decide;
  }

  lemma {:induction false} DecisionsQueue(m: Paper, p: Paper, cfg: PaperConfig, view: View, bars: seq<Bar>, wall: int)
    requires BundlesOk(cfg.bundles) && SameStanding(m.desk, p.desk) && p.kill == m.kill
    ensures var q := DecidePaper(p, cfg, view, bars, wall);
      && |q.desk.pending| == |p.desk.pending| + Queued(m, cfg, view, bars)
      && q.desk.pending[..|p.desk.pending|] == p.desk.pending
      && forall i :: |p.desk.pending| <= i < |q.desk.pending| ==> q.desk.pending[i].submitTime == view.now
    decreases |bars|
  {
    if bars != [] {
      hide DecidePaperBar, Queues;
      var q := DecidePaperBar(p, cfg, view, bars[0], wall);
      DecisionQueues(m, p, cfg, view, bars[0], wall);
      DecisionReach(p, cfg, view, bars[0], wall);
      DecisionsQueue(m, q, cfg, view, bars[1..], wall);
      var n, all := |p.desk.pending|, DecidePaper(p, cfg, view, bars, wall).desk.pending;
      assert all[..n] == all[..|q.desk.pending|][..n];
      if |q.desk.pending| > n {
        assert all[n] == all[..|q.desk.pending|][n];
      }
    }
  }
}
