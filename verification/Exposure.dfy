/** What a halt promises: no position grows and none changes sign while it lasts (mre/risk.py
    `gate_targets`). Groups may hold any number of bars of a symbol. */
module Exposure {
  import opened Collections
  import opened Market
  import opened Timeline
  import opened Source
  import opened Oms
  import opened Venue
  import opened Risk
  import opened Desk
  import opened Backtest
  import opened Commitment
  import opened Tracking

  /** `after` lies between zero and `before`: nothing was opened. */
  predicate Shrinks(before: real, after: real) {
    0.0 <= after <= before || before <= after <= 0.0
  }

  /** `n` times `x`. */
  function Times(n: nat, x: real): real {
    if n == 0 then 0.0 else Times(n - 1, x) + x
  }

  lemma {:induction false} TimesSign(n: nat, x: real)
    ensures x >= 0.0 ==> Times(n, x) >= 0.0
    ensures x <= 0.0 ==> Times(n, x) <= 0.0
  {
    if n > 0 {
      TimesSign(n - 1, x);
    }
  }

  lemma {:induction false} TimesAdds(m: nat, n: nat, x: real)
    ensures Times(m + n, x) == Times(m, x) + Times(n, x)
  {
    if n > 0 {
      TimesAdds(m, n - 1, x);
    }
  }

  /** Flattened once a holding is gone; flattened again, it is reversed. */
  lemma FlattenedShrinksIff(held: real, n: nat)
    ensures Shrinks(held, held + Times(n, -held)) <==> n <= 1 || held == 0.0
  {
    if n >= 2 {
      TimesAdds(2, n - 2, -held);
      TimesSign(n - 2, -held);
      assert Times(2, -held) == -held - held;
    } else {
      assert Times(1, -held) == -held;
    }
    TimesSign(n, -held);
  }

  // ------------------------------------------------------------- what a halted group commits to

  /** How often the group's decisions let a target for `s` through. */
  function Named<S>(r: Replay<S>, strategy: Strategy<S>, view: View, group: seq<Bar>, s: string): nat
    decreases |group|
  {
    if group == [] then 0
    else
      (if Filter(Allowed(r, strategy, view, group[0]), TargetFor(s)) != [] then 1 else 0)
      + Named(DecideBar(r, strategy, view, group[0]), strategy, view, group[1..], s)
  }

  lemma FlatTargetCommits(d: Desk, allowed: seq<Target>, submitTime: int, s: string)
    requires |allowed| <= 1 && forall t :: t in allowed ==> t.qty == 0.0
    ensures var d' := QueueTargets(d, allowed, submitTime);
      && Held(d', s) == Held(d, s)
      && Committed(d', s) == Committed(d, s) + (if Filter(allowed, TargetFor(s)) != [] then Landing(Held(d, s), 0.0) - Held(d, s) else 0.0)
  {
    hide QueueTargets, Held, Committed;
    QueueCommits(d, allowed, submitTime, s);
    GapsOfMine(Held(d, s), allowed, s);
    var mine := Filter(allowed, TargetFor(s));
    if mine != [] {
      assert mine[0] in mine && mine == [mine[0]] && mine[1..] == [];
    }
  }

  /** While halted a group's decisions flatten each symbol as often as they name it, and name only
      symbols the group carries. */
  lemma {:induction false} HaltedDecisionsCommit<S(!new)>(
      r: Replay<S>, strategy: Strategy<S>, view: View, group: seq<Bar>, s: string)
    requires OwnSymbol(strategy) && IsHalted(r.desk.risk)
    ensures var d := DecideGroup(r, strategy, view, group).desk;
      var n := Named(r, strategy, view, group, s);
      && Held(d, s) == Held(r.desk, s)
      && Committed(d, s) == Committed(r.desk, s) + Times(n, Landing(Held(r.desk, s), 0.0) - Held(r.desk, s))
      && (!HasSymbol(group, s) ==> n == 0)
    decreases |group|
  {
    hide Held, Committed, QueueTargets, Filter, Landing, IsHalted, OwnSymbol, Allowed, HasSymbol, DecideBar;
    if group != [] {
      var b := group[0];
      var allowed := Allowed(r, strategy, view, b);
      OneFlatTarget(r, strategy, view, b);
      FlatTargetCommits(r.desk, allowed, view.now, s);
      HasSymbolStep(group, s);
      if b.symbol != s {
        FilterNone(allowed, TargetFor(s));
      }
      HaltedDecisionsCommit(DecideBar(r, strategy, view, b), strategy, view, group[1..], s);
    }
  }

  lemma OneFlatTarget<S(!new)>(r: Replay<S>, strategy: Strategy<S>, view: View, b: Bar)
    requires OwnSymbol(strategy) && IsHalted(r.desk.risk)
    ensures var allowed := Allowed(r, strategy, view, b);
      |allowed| <= 1 && forall t :: t in allowed ==> t.qty == 0.0 && t.symbol == b.symbol
    ensures DecideBar(r, strategy, view, b).desk == QueueTargets(r.desk, Allowed(r, strategy, view, b), view.now)
    ensures IsHalted(DecideBar(r, strategy, view, b).desk.risk)
  {
    var allowed := Allowed(r, strategy, view, b);
    assert forall t :: t in allowed ==> IsFlat()(t);
  }

  // ------------------------------------------------------------- the exact law

  /** No group of the stretch makes the position grow or change sign. */
  predicate NeverOpens<S>(w: World, strategy: Strategy<S>, r: Replay<S>, groups: seq<seq<Bar>>, s: string)
    requires NonEmptyGroups(groups)
    decreases |groups|
  {
    groups == [] ||
    (var r' := StepGroup(w, strategy, r, groups[0]);
     Shrinks(Held(r.desk, s), Held(r'.desk, s)) && NeverOpens(w, strategy, r', groups[1..], s))
  }

  /** No group lets the symbol be flattened twice and is followed by one that fills both. */
  predicate FlattensOnce<S>(w: World, strategy: Strategy<S>, r: Replay<S>, groups: seq<seq<Bar>>, s: string)
    requires NonEmptyGroups(groups)
    decreases |groups|
  {
    groups == [] ||
    (var g := groups[0];
     var r' := StepGroup(w, strategy, r, g);
     (Named(Closed(w, r, g), strategy, View(w.bars, g[0].time + w.step), g, s) <= 1
      || Abs(Held(r'.desk, s)) < MIN_DELTA_QTY || !Carried(groups[1..], s))
     && FlattensOnce(w, strategy, r', groups[1..], s))
  }

  /** What is queued for the symbol does not open: or nothing will ever fill it. */
  predicate QueueShrinks(d: Desk, groups: seq<seq<Bar>>, s: string) {
    !Carried(groups, s) || Shrinks(Held(d, s), Committed(d, s))
  }

  lemma HaltedStepCommits<S(!new)>(w: World, strategy: Strategy<S>, r: Replay<S>, g: seq<Bar>, s: string)
    requires g != [] && OpensPositive(g) && OwnSymbol(strategy) && IsHalted(CloseStep(w, r.desk, g).risk)
    ensures var d := StepGroup(w, strategy, r, g).desk;
      var n := Named(Closed(w, r, g), strategy, View(w.bars, g[0].time + w.step), g, s);
      if HasSymbol(g, s)
      then Held(d, s) == Committed(r.desk, s)
           && Committed(d, s) == Held(d, s) + Times(n, Landing(Held(d, s), 0.0) - Held(d, s))
      else n == 0 && Held(d, s) == Held(r.desk, s) && Committed(d, s) == Committed(r.desk, s)
  {
    hide CloseStep, OpenGroup, DecideGroup, Mine, Held, OwnSymbol, IsHalted, Named, Landing;
    OpenSettles(r.desk, w.rules.costs, g, s);
    CloseKeepsQueue(w, r.desk, g, s);
    assert Net([]) == 0.0;
    HaltedDecisionsCommit(Closed(w, r, g), strategy, View(w.bars, g[0].time + w.step), g, s);
  }

  /** After a halted group that carried the symbol, what it queued does not open exactly when it
      flattened at most once, or only dust. */
  lemma AfterFlattening(held: real, committed: real, n: nat)
    requires committed == held + Times(n, Landing(held, 0.0) - held)
    ensures Shrinks(held, committed) <==> n <= 1 || Abs(held) < MIN_DELTA_QTY
  {
    if Abs(held) < MIN_DELTA_QTY {
      TimesSign(n, 0.0);
    } else {
      FlattenedShrinksIff(held, n);
    }
  }

  /** Halted, whatever was queued and however often a group names a symbol: no position grows or
      changes sign if and only if what was queued would not have made it, and no group flattens it
      twice. */
  lemma {:induction false} HaltedNeverOpensIff<S(!new)>(
      w: World, strategy: Strategy<S>, r: Replay<S>, groups: seq<seq<Bar>>, s: string)
    requires NonEmptyGroups(groups) && OwnSymbol(strategy)
    requires HaltedThrough(w, strategy, r, groups) && RunGroups(w, strategy, r, groups).Success?
    ensures NeverOpens(w, strategy, r, groups, s)
      <==> QueueShrinks(r.desk, groups, s) && FlattensOnce(w, strategy, r, groups, s)
    decreases |groups|
  {
    hide StepGroup, Mine, Held, Committed, OwnSymbol, CloseStep, Named, HasSymbol, Landing, OpensPositive;
    if groups != [] {
      var g := groups[0];
      var r' := StepGroup(w, strategy, r, g);
      HaltedStepCommits(w, strategy, r, g, s);
      HaltedNeverOpensIff(w, strategy, r', groups[1..], s);
      if HasSymbol(g, s) {
        AfterFlattening(Held(r'.desk, s), Committed(r'.desk, s),
                        Named(Closed(w, r, g), strategy, View(w.bars, g[0].time + w.step), g, s));
      }
    }
  }

  /** With one bar per symbol in a group nothing is flattened twice. */
  lemma {:induction false} SingleBarNamesOnce<S(!new)>(
      r: Replay<S>, strategy: Strategy<S>, view: View, group: seq<Bar>, s: string)
    requires OwnSymbol(strategy) && OneBarPerSymbol(group)
    ensures Named(r, strategy, view, group, s) <= 1
    ensures !HasSymbol(group, s) ==> Named(r, strategy, view, group, s) == 0
    decreases |group|
  {
    if group != [] {
      var b := group[0];
      var allowed := Allowed(r, strategy, view, b);
      assert forall t :: t in allowed ==> t.symbol == b.symbol;
      hide OwnSymbol, Filter, Allowed;
      HasSymbolStep(group, s);
      if b.symbol == s {
        OwnBarIsOnly(group);
      } else {
        FilterNone(allowed, TargetFor(s));
      }
      SingleBarNamesOnce(DecideBar(r, strategy, view, b), strategy, view, group[1..], s);
    }
  }

  lemma {:induction false} SingleBarsFlattenOnce<S(!new)>(
      w: World, strategy: Strategy<S>, r: Replay<S>, groups: seq<seq<Bar>>, s: string)
    requires NonEmptyGroups(groups) && SingleBars(groups) && OwnSymbol(strategy)
    ensures FlattensOnce(w, strategy, r, groups, s)
    decreases |groups|
  {
    hide StepGroup, Held, OwnSymbol, CloseStep, Named;
    if groups != [] {
      var g := groups[0];
      SingleBarNamesOnce(Closed(w, r, g), strategy, View(w.bars, g[0].time + w.step), g, s);
      SingleBarsFlattenOnce(w, strategy, StepGroup(w, strategy, r, g), groups[1..], s);
    }
  }
}
