/** Strategies that name their own bar's symbol alone, on at most one bar per symbol in a group,
    find nothing queued for it: for them positions track the targets the gate lets through, and
    while halted they only go flat. */
module Tracking {
  import opened Collections
  import opened Market
  import opened Timeline
  import opened Source
  import opened Oms
  import opened Venue
  import opened Risk
  import opened Desk
  import opened Backtest
  import opened Commitment

  ghost predicate OwnSymbol<S(!new)>(strategy: Strategy<S>) {
    forall mind: S, b: Bar, v: View, p: Snapshot ::
      var targets := strategy(mind, b, v, p).1;
      |targets| <= 1 && forall t :: t in targets ==> t.symbol == b.symbol
  }

  predicate OneBarPerSymbol(group: seq<Bar>) {
    forall i, j :: 0 <= i < j < |group| ==> group[i].symbol != group[j].symbol
  }

  /** At most one queued order, and it lands exactly on the wanted target; with none queued the
      holding is within dust of it; a symbol never targeted is not held. */
  ghost predicate OnTarget(d: Desk, s: string, wanted: Option<real>) {
    var mine := Mine(d, s);
    && |mine| <= 1
    && (mine != [] ==> wanted.Some? && Held(d, s) + Signed(mine[0].side, mine[0].quantity) == wanted.value)
    && (mine == [] && wanted.Some? ==> Abs(wanted.value - Held(d, s)) < MIN_DELTA_QTY)
    && (wanted.None? ==> Held(d, s) == 0.0)
  }

  ghost predicate Settled(d: Desk, s: string, wanted: Option<real>) {
    OnTarget(d, s, wanted) && Mine(d, s) == []
  }

  /** Whatever is queued for the symbol takes its holding to zero. */
  predicate FlatQueue(d: Desk, s: string) {
    Mine(d, s) == [] || Committed(d, s) == 0.0
  }

  lemma OnTargetCommits(d: Desk, s: string, wanted: Option<real>)
    requires OnTarget(d, s, wanted)
    ensures match wanted
      case None => Committed(d, s) == 0.0
      case Some(q) => Abs(q - Committed(d, s)) < MIN_DELTA_QTY && (Mine(d, s) != [] ==> Committed(d, s) == q)
  {
    var mine := Mine(d, s);
    if mine != [] {
      assert mine == [mine[0]];
      NetOfOne(mine[0]);
    }
  }

  // ------------------------------------------------------------- the decisions

  lemma QueueOne(d: Desk, allowed: seq<Target>, submitTime: int, s: string)
    requires |allowed| <= 1
    ensures var d' := QueueTargets(d, allowed, submitTime);
      && Held(d', s) == Held(d, s)
      && (allowed == [] || allowed[0].symbol != s ==> Mine(d', s) == Mine(d, s))
      && (allowed != [] && allowed[0].symbol == s && Mine(d, s) == [] ==>
            OnTarget(d', s, Some(allowed[0].qty)))
  {
    var orders := DeltaOrders(d.account.book, allowed, submitTime, d.account.orderSeq);
    FilterAppend(d.pending, orders, OrderFor(s));
    if allowed != [] {
      var t := allowed[0];
      assert allowed == [t];
      SingleDeltaOrder(d.account.book, t, submitTime, d.account.orderSeq);
      DeltaOrderReachesTarget(d.account.book, t, submitTime, d.account.orderSeq);
      if orders != [] {
        FilterCons(orders[0], [], OrderFor(s));
        assert orders == [orders[0]] + [];
      }
    }
  }

  lemma SingleDeltaOrder(book: Book, t: Target, submitTime: int, orderSeq: nat)
    ensures DeltaOrders(book, [t], submitTime, orderSeq)
      == match DeltaOrder(book, t, submitTime, orderSeq)
         case None => []
         case Some(o) => [o]
  {
    assert [t][1..] == [];
  }

  /** The target for `s` most recently let through. */
  function Wanted(prev: Option<real>, allowed: seq<Target>, s: string): Option<real> {
    if allowed != [] && allowed[0].symbol == s then Some(allowed[0].qty) else prev
  }

  function WantedAfterGroup<S>(
      r: Replay<S>, strategy: Strategy<S>, view: View, group: seq<Bar>, s: string, prev: Option<real>): Option<real>
    decreases |group|
  {
    if group == [] then prev
    else WantedAfterGroup(DecideBar(r, strategy, view, group[0]), strategy, view, group[1..], s,
                          Wanted(prev, Allowed(r, strategy, view, group[0]), s))
  }

  lemma {:induction false} DecideTracks<S(!new)>(
      r: Replay<S>, strategy: Strategy<S>, view: View, group: seq<Bar>, s: string, wanted: Option<real>)
    requires OwnSymbol(strategy) && OneBarPerSymbol(group)
    requires OnTarget(r.desk, s, wanted)
    requires HasSymbol(group, s) ==> Mine(r.desk, s) == []
    ensures OnTarget(DecideGroup(r, strategy, view, group).desk, s,
                     WantedAfterGroup(r, strategy, view, group, s, wanted))
    decreases |group|
  {
    if group != [] {
      var b := group[0];
      var allowed := Allowed(r, strategy, view, b);
      QueueOne(r.desk, allowed, view.now, s);
      HasSymbolStep(group, s);
      if b.symbol == s {
        OwnBarIsOnly(group);
      }
      DecideTracks(DecideBar(r, strategy, view, b), strategy, view, group[1..], s, Wanted(wanted, allowed, s));
    }
  }

  lemma OwnBarIsOnly(group: seq<Bar>)
    requires group != [] && OneBarPerSymbol(group)
    ensures !HasSymbol(group[1..], group[0].symbol)
  {
    forall i | 0 <= i < |group[1..]| ensures group[1..][i].symbol != group[0].symbol {
      assert group[1..][i] == group[i + 1];
    }
  }

  // ------------------------------------------------------------- whole runs: tracking

  function WantedAfterRun<S>(
      w: World, strategy: Strategy<S>, r: Replay<S>, groups: seq<seq<Bar>>, s: string, prev: Option<real>): Option<real>
    requires NonEmptyGroups(groups)
    decreases |groups|
  {
    if groups == [] then prev
    else
      var g := groups[0];
      var close := g[0].time + w.step;
      WantedAfterRun(w, strategy, StepGroup(w, strategy, r, g), groups[1..], s,
        WantedAfterGroup(Closed(w, r, g), strategy, View(w.bars, close), g, s, prev))
  }

  predicate SingleBars(groups: seq<seq<Bar>>) {
    forall i :: 0 <= i < |groups| ==> OneBarPerSymbol(groups[i])
  }

  lemma OpenKeepsOnTarget(d: Desk, costs: Costs, group: seq<Bar>, s: string, wanted: Option<real>)
    requires OpensPositive(group) && OnTarget(d, s, wanted)
    ensures OnTarget(OpenGroup(d, costs, group), s, wanted)
    ensures HasSymbol(group, s) ==> Settled(OpenGroup(d, costs, group), s, wanted)
  {
    hide OpenGroup, Mine, Held;
    OnTargetCommits(d, s, wanted);
    OpenSettles(d, costs, group, s);
  }

  lemma StepTracks<S(!new)>(
      w: World, strategy: Strategy<S>, r: Replay<S>, g: seq<Bar>, s: string, wanted: Option<real>)
    requires g != [] && OpensPositive(g) && OneBarPerSymbol(g) && OwnSymbol(strategy)
    requires OnTarget(r.desk, s, wanted)
    ensures HasSymbol(g, s) ==> Settled(CloseStep(w, r.desk, g), s, wanted)
    ensures var close := g[0].time + w.step;
      OnTarget(StepGroup(w, strategy, r, g).desk, s,
        WantedAfterGroup(Closed(w, r, g), strategy, View(w.bars, close), g, s, wanted))
  {
    hide CloseStep, OpenGroup, DecideGroup, Filter, QtyOf;
    var close := g[0].time + w.step;
    OpenKeepsOnTarget(r.desk, w.rules.costs, g, s, wanted);
    CloseKeepsQueue(w, r.desk, g, s);
    DecideTracks(Closed(w, r, g), strategy, View(w.bars, close), g, s, wanted);
  }

  /** Over any run: never more than one queued order per symbol, and it lands on the last
      target the gate let through for that symbol. */
  lemma {:induction false} RunTracks<S(!new)>(
      w: World, strategy: Strategy<S>, r: Replay<S>, groups: seq<seq<Bar>>, s: string, wanted: Option<real>)
    requires NonEmptyGroups(groups) && SingleBars(groups) && OwnSymbol(strategy)
    requires OnTarget(r.desk, s, wanted)
    requires RunGroups(w, strategy, r, groups).Success?
    ensures OnTarget(RunGroups(w, strategy, r, groups).value.desk, s, WantedAfterRun(w, strategy, r, groups, s, wanted))
    decreases |groups|
  {
    hide CloseStep, DecideGroup, WantedAfterGroup, OnTarget;
    if groups != [] {
      var g := groups[0];
      var close := g[0].time + w.step;
      StepTracks(w, strategy, r, g, s, wanted);
      RunTracks(w, strategy, StepGroup(w, strategy, r, g), groups[1..], s,
        WantedAfterGroup(Closed(w, r, g), strategy, View(w.bars, close), g, s, wanted));
    }
  }

  lemma StartsOnTarget(initialEquity: real, risk: RiskState, s: string)
    ensures OnTarget(NewDesk(initialEquity, risk), s, None)
  {
  }

  /** Once the next bar of a symbol has opened, its position is within dust of the last target
      let through before that bar, and nothing is queued for it. */
  lemma PositionTracksTarget<S(!new)>(
      w: World, strategy: Strategy<S>, initialEquity: real, risk: RiskState, mind: S, start: int,
      groups: seq<seq<Bar>>, next: seq<Bar>, s: string)
    requires NonEmptyGroups(groups) && SingleBars(groups) && OwnSymbol(strategy)
    requires next != [] && OneBarPerSymbol(next) && OpensPositive(next) && HasSymbol(next, s)
    requires RunGroups(w, strategy, Start(initialEquity, risk, mind, start), groups).Success?
    ensures var r := Start(initialEquity, risk, mind, start);
      var before := RunGroups(w, strategy, r, groups).value;
      var after := CloseStep(w, before.desk, next);
      && Mine(after, s) == []
      && match WantedAfterRun(w, strategy, r, groups, s, None)
         case None => Held(after, s) == 0.0
         case Some(q) => Abs(q - Held(after, s)) < MIN_DELTA_QTY
  {
    hide CloseStep, OpenGroup, DecideGroup, Filter, QtyOf;
    var r := Start(initialEquity, risk, mind, start);
    StartsOnTarget(initialEquity, risk, s);
    RunTracks(w, strategy, r, groups, s, None);
    var before := RunGroups(w, strategy, r, groups).value;
    StepTracks(w, strategy, before, next, s, WantedAfterRun(w, strategy, r, groups, s, None));
    OpenSettles(before.desk, w.rules.costs, next, s);
  }

  // ------------------------------------------------------------- whole runs: halted stretches

  lemma QueueFlat(d: Desk, allowed: seq<Target>, submitTime: int, s: string)
    requires |allowed| <= 1 && (allowed != [] ==> allowed[0].qty == 0.0)
    requires FlatQueue(d, s) && (allowed != [] && allowed[0].symbol == s ==> Mine(d, s) == [])
    ensures FlatQueue(QueueTargets(d, allowed, submitTime), s)
  {
    hide QueueTargets, Mine, Held;
    QueueOne(d, allowed, submitTime, s);
    if allowed != [] && allowed[0].symbol == s {
      OnTargetCommits(QueueTargets(d, allowed, submitTime), s, Some(0.0));
    }
  }

  /** The decisions of a halted group queue nothing but flattening, and only for its own symbols. */
  lemma {:induction false} HaltedDecide<S(!new)>(
      r: Replay<S>, strategy: Strategy<S>, view: View, group: seq<Bar>, s: string)
    requires OwnSymbol(strategy) && OneBarPerSymbol(group) && IsHalted(r.desk.risk)
    requires HasSymbol(group, s) ==> Mine(r.desk, s) == []
    ensures var d := DecideGroup(r, strategy, view, group).desk;
      && Held(d, s) == Held(r.desk, s)
      && (HasSymbol(group, s) || FlatQueue(r.desk, s) ==> FlatQueue(d, s))
      && (!HasSymbol(group, s) ==> Mine(d, s) == Mine(r.desk, s))
    decreases |group|
  {
    if group != [] {
      var b := group[0];
      var allowed := Allowed(r, strategy, view, b);
      assert allowed != [] ==> allowed[0] in allowed && IsFlat()(allowed[0]);
      QueueOne(r.desk, allowed, view.now, s);
      HasSymbolStep(group, s);
      if b.symbol == s {
        OwnBarIsOnly(group);
        QueueFlat(r.desk, allowed, view.now, s);
      }
      hide Mine, Held, QueueTargets, IsHalted, FlatQueue;
      HaltedDecide(DecideBar(r, strategy, view, b), strategy, view, group[1..], s);
      if b.symbol != s {
        QueueKeepsFlat(r.desk, DecideBar(r, strategy, view, b).desk, s);
      }
    }
  }

  lemma QueueKeepsFlat(d: Desk, d': Desk, s: string)
    requires Held(d', s) == Held(d, s) && Mine(d', s) == Mine(d, s)
    ensures FlatQueue(d', s) == FlatQueue(d, s) && Committed(d', s) == Committed(d, s)
  {
  }

  /** Every close of the stretch finds the risk manager halted. */
  predicate HaltedThrough<S>(w: World, strategy: Strategy<S>, r: Replay<S>, groups: seq<seq<Bar>>)
    requires NonEmptyGroups(groups)
    decreases |groups|
  {
    groups == [] ||
    (IsHalted(CloseStep(w, r.desk, groups[0]).risk)
     && HaltedThrough(w, strategy, StepGroup(w, strategy, r, groups[0]), groups[1..]))
  }

  /** A halted group with a bar of the symbol fills whatever was queued for it, flattening or not,
      and leaves nothing but flattening behind; without one it leaves the symbol alone. */
  lemma HaltedStep<S(!new)>(w: World, strategy: Strategy<S>, r: Replay<S>, g: seq<Bar>, s: string)
    requires g != [] && OpensPositive(g) && OneBarPerSymbol(g) && OwnSymbol(strategy)
    requires IsHalted(CloseStep(w, r.desk, g).risk)
    ensures var d := StepGroup(w, strategy, r, g).desk;
      if HasSymbol(g, s) then Held(d, s) == Committed(r.desk, s) && FlatQueue(d, s)
      else Held(d, s) == Held(r.desk, s) && Mine(d, s) == Mine(r.desk, s)
  {
    hide CloseStep, OpenGroup, DecideGroup, Mine, Held, Committed;
    var close := g[0].time + w.step;
    OpenSettles(r.desk, w.rules.costs, g, s);
    CloseKeepsQueue(w, r.desk, g, s);
    HaltedDecide(Closed(w, r, g), strategy, View(w.bars, close), g, s);
  }

  /** After every group the position is `was` or zero. */
  predicate StaysOrFlat<S>(
      w: World, strategy: Strategy<S>, r: Replay<S>, groups: seq<seq<Bar>>, s: string, was: real)
    requires NonEmptyGroups(groups)
    decreases |groups|
  {
    groups == [] ||
    (var r' := StepGroup(w, strategy, r, groups[0]);
     Held(r'.desk, s) in {was, 0.0} && StaysOrFlat(w, strategy, r', groups[1..], s, was))
  }

  predicate Carried(groups: seq<seq<Bar>>, s: string)
    decreases |groups|
  {
    groups != [] && (HasSymbol(groups[0], s) || Carried(groups[1..], s))
  }

  /** Over consecutive halted groups with nothing but flattening queued, a position is after every
      group either what it was or zero: it never grows, never reverses. */
  lemma {:induction false} FlattenOnlyWhileHalted<S(!new)>(
      w: World, strategy: Strategy<S>, r: Replay<S>, groups: seq<seq<Bar>>, s: string, was: real)
    requires NonEmptyGroups(groups) && SingleBars(groups) && OwnSymbol(strategy)
    requires FlatQueue(r.desk, s) && Held(r.desk, s) in {was, 0.0}
    requires HaltedThrough(w, strategy, r, groups)
    requires RunGroups(w, strategy, r, groups).Success?
    ensures StaysOrFlat(w, strategy, r, groups, s, was)
    ensures FlatQueue(RunGroups(w, strategy, r, groups).value.desk, s)
    decreases |groups|
  {
    if groups != [] {
      hide StepGroup, Mine, Held, OwnSymbol, CloseStep;
      HaltedStep(w, strategy, r, groups[0], s);
      if !HasSymbol(groups[0], s) {
        QueueKeepsFlat(r.desk, StepGroup(w, strategy, r, groups[0]).desk, s);
      } else {
        FlatMeansStay(r.desk, s);
      }
      FlattenOnlyWhileHalted(w, strategy, StepGroup(w, strategy, r, groups[0]), groups[1..], s, was);
    }
  }

  lemma FlatMeansStay(d: Desk, s: string)
    requires FlatQueue(d, s)
    ensures Committed(d, s) in {Held(d, s), 0.0}
  {
    hide Mine, Held;
    assert Net([]) == 0.0;
  }

  /** From the first halted group that carries the symbol on: that group fills what was queued, and
      from there the position only stays or goes flat. */
  lemma HaltedStretch<S(!new)>(
      w: World, strategy: Strategy<S>, r: Replay<S>, groups: seq<seq<Bar>>, s: string)
    requires groups != [] && NonEmptyGroups(groups) && SingleBars(groups) && OwnSymbol(strategy)
    requires HaltedThrough(w, strategy, r, groups) && HasSymbol(groups[0], s)
    requires RunGroups(w, strategy, r, groups).Success?
    ensures var first := StepGroup(w, strategy, r, groups[0]);
      Held(first.desk, s) == Committed(r.desk, s)
      && StaysOrFlat(w, strategy, first, groups[1..], s, Committed(r.desk, s))
  {
    hide StepGroup, Mine, Held, OwnSymbol, CloseStep, FlatQueue;
    HaltedStep(w, strategy, r, groups[0], s);
    FlattenOnlyWhileHalted(w, strategy, StepGroup(w, strategy, r, groups[0]), groups[1..], s, Committed(r.desk, s));
  }

  /** Halted, whatever was queued: the position only stays or goes flat if and only if no group
      carries the symbol, or the queue left the position alone or closed it. The gate does not
      look at orders queued before the halt: they fill. */
  lemma {:induction false} HaltedStretchIff<S(!new)>(
      w: World, strategy: Strategy<S>, r: Replay<S>, groups: seq<seq<Bar>>, s: string)
    requires NonEmptyGroups(groups) && SingleBars(groups) && OwnSymbol(strategy)
    requires HaltedThrough(w, strategy, r, groups)
    requires RunGroups(w, strategy, r, groups).Success?
    ensures StaysOrFlat(w, strategy, r, groups, s, Held(r.desk, s))
      <==> !Carried(groups, s) || Committed(r.desk, s) in {Held(r.desk, s), 0.0}
    decreases |groups|
  {
    if groups != [] {
      hide StepGroup, Mine, Held, OwnSymbol, CloseStep, FlatQueue;
      var r' := StepGroup(w, strategy, r, groups[0]);
      HaltedStep(w, strategy, r, groups[0], s);
      if !HasSymbol(groups[0], s) {
        QueueKeepsFlat(r.desk, r'.desk, s);
        HaltedStretchIff(w, strategy, r', groups[1..], s);
      } else if Committed(r.desk, s) in {Held(r.desk, s), 0.0} {
        FlattenOnlyWhileHalted(w, strategy, r', groups[1..], s, Held(r.desk, s));
      }
    }
  }
}
