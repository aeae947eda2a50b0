/** Triple-barrier labels and their stability under later data (labels/triple_barrier.py). */
module Labels {
  import opened Collections
  import opened Market
  import opened FeatureStore

  datatype Barriers = Barriers(horizon: int, upPct: real, downPct: real)

  datatype LabelError = BadHorizon | BadBarriers

  function Upper(q: Barriers, entry: real): real {
    entry * (1.0 + q.upPct)
  }

  function Lower(q: Barriers, entry: real): real {
    entry * (1.0 - q.downPct)
  }

  predicate Touches(b: Bar, upper: real, lower: real) {
    b.high >= upper || b.low <= lower
  }

  /** What a touching bar decides; both barriers in one bar is ambiguous and counts as flat. */
  function Verdict(b: Bar, upper: real, lower: real): int {
    if b.high >= upper && b.low <= lower then 0
    else if b.high >= upper then 1
    else if b.low <= lower then -1
    else 0
  }

  /** The verdict of the first touching bar among those at `k..stop`, or flat. */
  function FirstTouch(bars: seq<Bar>, upper: real, lower: real, k: nat, stop: nat): int
    decreases stop - k
  {
    if k >= stop || k >= |bars| then 0
    else if Touches(bars[k], upper, lower) then Verdict(bars[k], upper, lower)
    else FirstTouch(bars, upper, lower, k + 1, stop)
  }

  function OutcomeAt(q: Barriers, bars: seq<Bar>, i: nat): int
    requires i < |bars| && q.horizon >= 1
  {
    FirstTouch(bars, Upper(q, bars[i].close), Lower(q, bars[i].close), i + 1, i + 1 + q.horizon)
  }

  function LabelAt(q: Barriers, bars: seq<Bar>, i: nat): Label
    requires i < |bars| && q.horizon >= 1
  {
    Label(bars[i].symbol, bars[i].time, OutcomeAt(q, bars, i))
  }

  function LabelsOf(q: Barriers, sorted: seq<Bar>): (ls: seq<Label>)
    requires q.horizon >= 1
    ensures |ls| == |sorted| && forall i :: 0 <= i < |ls| ==> ls[i] == LabelAt(q, sorted, i)
  {
    seq(|sorted|, i requires 0 <= i < |sorted| => LabelAt(q, sorted, i))
  }

  /** What the labeller returns, errors included. */
  function TripleBarrier(q: Barriers, bars: seq<Bar>): Result<seq<Label>, LabelError> {
    if q.horizon < 1 then Failure(BadHorizon)
    else if q.upPct <= 0.0 || q.downPct <= 0.0 then Failure(BadBarriers)
    else Success(LabelsOf(q, TimeSort(bars)))
  }

  function NotFlat(): Label -> bool {
    (l: Label) => l.outcome != 0
  }

  /** The directional training set drops the flat rows. */
  function DirectionalOnly(q: Barriers, bars: seq<Bar>): Result<seq<Label>, LabelError> {
    match TripleBarrier(q, bars)
    case Failure(e) => Failure(e)
    case Success(ls) => Success(Filter(ls, NotFlat()))
  }

  method TripleBarrierLabels(q: Barriers, bars: seq<Bar>) returns (r: Result<seq<Label>, LabelError>)
    ensures r == TripleBarrier(q, bars)
  {
    if q.horizon < 1 {
      return Failure(BadHorizon);
    }
    if q.upPct <= 0.0 || q.downPct <= 0.0 {
      return Failure(BadBarriers);
    }
    hide Upper, Lower, Touches, Verdict, FirstTouch;
    var sorted: seq<Bar> := TimeSort(bars);
    var n := |sorted|;
    var labels: seq<Label> := [];
    for i := 0 to n
      invariant labels == LabelsOf(q, sorted)[..i]
    {
      var current := sorted[i];
      var outcome := ScanForward(sorted, Upper(q, current.close), Lower(q, current.close), i, q.horizon);
      labels := labels + [Label(current.symbol, current.time, outcome)];
    }
    assert LabelsOf(q, sorted)[..n] == LabelsOf(q, sorted);
    return Success(labels);
  }

  /** The inner loop: `j` runs over the horizon and stops at the first touch or the last bar. */
  method ScanForward(sorted: seq<Bar>, upper: real, lower: real, i: nat, horizon: nat) returns (outcome: int)
    requires i < |sorted|
    ensures outcome == FirstTouch(sorted, upper, lower, i + 1, i + 1 + horizon)
  {
    outcome := 0;
    var j := 1;
    while j < horizon + 1
      invariant 1 <= j <= horizon + 1
      invariant FirstTouch(sorted, upper, lower, i + j, i + 1 + horizon)
             == FirstTouch(sorted, upper, lower, i + 1, i + 1 + horizon)
    {
      var k := i + j;
      if k >= |sorted| {
        return;
      }
      var upHit, downHit := sorted[k].high >= upper, sorted[k].low <= lower;
      if upHit && downHit {
        return 0;
      }
      if upHit {
        return 1;
      }
      if downHit {
        return -1;
      }
      j := j + 1;
    }
  }

  // ------------------------------------------------------------- what a label means

  /** Some bar within the horizon touches a barrier. */
  predicate Decided(q: Barriers, bars: seq<Bar>, i: nat)
    requires i < |bars|
  {
    exists k :: i < k < |bars| && k <= i + q.horizon && Touches(bars[k], Upper(q, bars[i].close), Lower(q, bars[i].close))
  }

  lemma {:induction false} FirstTouchAt(bars: seq<Bar>, upper: real, lower: real, k: nat, stop: nat, m: nat)
    requires k <= m < stop && m < |bars| && Touches(bars[m], upper, lower)
    requires forall j :: k <= j < m ==> !Touches(bars[j], upper, lower)
    ensures FirstTouch(bars, upper, lower, k, stop) == Verdict(bars[m], upper, lower)
    decreases m - k
  {
    if k < m {
      FirstTouchAt(bars, upper, lower, k + 1, stop, m);
    }
  }

  lemma {:induction false} NoTouch(bars: seq<Bar>, upper: real, lower: real, k: nat, stop: nat)
    requires forall j :: k <= j < stop && j < |bars| ==> !Touches(bars[j], upper, lower)
    ensures FirstTouch(bars, upper, lower, k, stop) == 0
    decreases stop - k
  {
    if k < stop && k < |bars| {
      NoTouch(bars, upper, lower, k + 1, stop);
    }
  }

  lemma {:induction false} FirstOf(bars: seq<Bar>, upper: real, lower: real, k: nat, m: nat) returns (first: nat)
    requires k <= m < |bars| && Touches(bars[m], upper, lower)
    ensures k <= first <= m && Touches(bars[first], upper, lower)
    ensures forall j :: k <= j < first ==> !Touches(bars[j], upper, lower)
    decreases m - k
  {
    if Touches(bars[k], upper, lower) {
      first := k;
    } else {
      first := FirstOf(bars, upper, lower, k + 1, m);
    }
  }

  /** Bar `k` is the first within the horizon to touch a barrier. */
  predicate TouchesFirst(q: Barriers, bars: seq<Bar>, i: nat, k: nat)
    requires i < |bars|
  {
    && i < k < |bars| && k <= i + q.horizon
    && Touches(bars[k], Upper(q, bars[i].close), Lower(q, bars[i].close))
    && forall j :: i < j < k ==> !Touches(bars[j], Upper(q, bars[i].close), Lower(q, bars[i].close))
  }

  lemma FirstTouchDecides(q: Barriers, bars: seq<Bar>, i: nat, k: nat)
    requires q.horizon >= 1 && i < |bars| && TouchesFirst(q, bars, i, k)
    ensures OutcomeAt(q, bars, i) == Verdict(bars[k], Upper(q, bars[i].close), Lower(q, bars[i].close))
  {
    FirstTouchAt(bars, Upper(q, bars[i].close), Lower(q, bars[i].close), i + 1, i + 1 + q.horizon, k);
  }

  lemma UndecidedIsFlat(q: Barriers, bars: seq<Bar>, i: nat)
    requires q.horizon >= 1 && i < |bars| && forall k: nat :: !TouchesFirst(q, bars, i, k)
    ensures OutcomeAt(q, bars, i) == 0
  {
    var upper, lower := Upper(q, bars[i].close), Lower(q, bars[i].close);
    if m :| i < m < |bars| && m <= i + q.horizon && Touches(bars[m], upper, lower) {
      var first := FirstOf(bars, upper, lower, i + 1, m);
      assert TouchesFirst(q, bars, i, first);
    } else {
      NoTouch(bars, upper, lower, i + 1, i + 1 + q.horizon);
    }
  }

  predicate Rises(q: Barriers, entry: real, b: Bar) {
    b.high - entry >= entry * q.upPct
  }

  predicate Falls(q: Barriers, entry: real, b: Bar) {
    entry - b.low >= entry * q.downPct
  }

  /** Bar `k` is the first within the horizon to rise or fall far enough from bar `i`'s close. */
  predicate FirstMove(q: Barriers, bars: seq<Bar>, i: nat, k: nat)
    requires i < |bars|
  {
    && i < k < |bars| && k - i <= q.horizon
    && (Rises(q, bars[i].close, bars[k]) || Falls(q, bars[i].close, bars[k]))
    && forall j :: i < j < k ==> !Rises(q, bars[i].close, bars[j]) && !Falls(q, bars[i].close, bars[j])
  }

  lemma BarriersAreMoves(q: Barriers, entry: real, b: Bar)
    ensures Touches(b, Upper(q, entry), Lower(q, entry)) <==> Rises(q, entry, b) || Falls(q, entry, b)
    ensures Verdict(b, Upper(q, entry), Lower(q, entry))
      == (if Rises(q, entry, b) then 1 else 0) - (if Falls(q, entry, b) then 1 else 0)
  {
    assert entry * (1.0 + q.upPct) == entry + entry * q.upPct;
    assert entry * (1.0 - q.downPct) == entry - entry * q.downPct;
  }

  /** A label is up exactly when the first bar within the horizon to move far enough rises by the
      upper percentage and does not fall by the lower one, down exactly when it falls and does not
      rise, and flat otherwise: no such bar, or both in one. */
  lemma OutcomeMeans(q: Barriers, bars: seq<Bar>, i: nat)
    requires i < |bars| && q.horizon >= 1
    ensures -1 <= OutcomeAt(q, bars, i) <= 1
    ensures OutcomeAt(q, bars, i) == 1 <==>
      exists k: nat :: FirstMove(q, bars, i, k) && !Falls(q, bars[i].close, bars[k])
    ensures OutcomeAt(q, bars, i) == -1 <==>
      exists k: nat :: FirstMove(q, bars, i, k) && !Rises(q, bars[i].close, bars[k])
  {
    hide Upper, Lower, Touches, Verdict, OutcomeAt, Rises, Falls;
    var entry := bars[i].close;
    forall b: Bar
      ensures Touches(b, Upper(q, entry), Lower(q, entry)) <==> Rises(q, entry, b) || Falls(q, entry, b)
      ensures Verdict(b, Upper(q, entry), Lower(q, entry))
        == (if Rises(q, entry, b) then 1 else 0) - (if Falls(q, entry, b) then 1 else 0)
    {
      BarriersAreMoves(q, entry, b);
    }
    forall k: nat ensures FirstMove(q, bars, i, k) <==> TouchesFirst(q, bars, i, k) {
    }
    if k: nat :| TouchesFirst(q, bars, i, k) {
      FirstTouchDecides(q, bars, i, k);
      forall m: nat | TouchesFirst(q, bars, i, m) ensures m == k {
      }
    } else {
      UndecidedIsFlat(q, bars, i);
    }
  }

  // ------------------------------------------------------------- later data

  lemma {:induction false} SamePrefixSameTouch(xs: seq<Bar>, ys: seq<Bar>, upper: real, lower: real, k: nat, stop: nat)
    requires stop <= |xs| && stop <= |ys| && xs[..stop] == ys[..stop]
    ensures FirstTouch(xs, upper, lower, k, stop) == FirstTouch(ys, upper, lower, k, stop)
    decreases stop - k
  {
    if k < stop {
      assert xs[k] == xs[..stop][k] == ys[k];
      SamePrefixSameTouch(xs, ys, upper, lower, k + 1, stop);
    }
  }

  /** A label whose horizon is complete reads nothing past it. */
  lemma CompleteLabelIsFixed(q: Barriers, xs: seq<Bar>, ys: seq<Bar>, i: nat)
    requires q.horizon >= 1 && i + q.horizon < |xs| && i + q.horizon < |ys|
    requires xs[..i + 1 + q.horizon] == ys[..i + 1 + q.horizon]
    ensures LabelAt(q, xs, i) == LabelAt(q, ys, i)
  {
    hide Upper, Lower, Touches, Verdict, FirstTouch;
    assert xs[i] == xs[..i + 1 + q.horizon][i] == ys[i];
    SamePrefixSameTouch(xs, ys, Upper(q, xs[i].close), Lower(q, xs[i].close), i + 1, i + 1 + q.horizon);
  }

  /** The next candle, traded at a single price that reaches the upper barrier alone. */
  function Spike(like: Bar, upper: real, lower: real): Bar {
    var price := if upper > lower then upper else lower + 1.0;
    like.(time := like.time + 1, open := price, high := price, low := price, close := price)
  }

  /** Which labels no later bar can change: those whose horizon is complete and those already
      decided inside the data, and no others. */
  lemma FixedLabelIff(q: Barriers, bars: seq<Bar>, i: nat)
    requires q.horizon >= 1 && i < |bars|
    ensures (forall later: seq<Bar> :: OutcomeAt(q, bars + later, i) == OutcomeAt(q, bars, i))
      <==> i + q.horizon < |bars| || Decided(q, bars, i)
  {
    hide Upper, Lower, FirstTouch;
    var upper, lower := Upper(q, bars[i].close), Lower(q, bars[i].close);
    if i + q.horizon < |bars| {
      forall later: seq<Bar> ensures OutcomeAt(q, bars + later, i) == OutcomeAt(q, bars, i) {
        var stop := i + 1 + q.horizon;
        SplitAppend(bars, later, stop);
        CompleteLabelIsFixed(q, bars + later, bars, i);
      }
    } else if Decided(q, bars, i) {
      var m :| i < m < |bars| && m <= i + q.horizon && Touches(bars[m], upper, lower);
      var first := FirstOf(bars, upper, lower, i + 1, m);
      forall later: seq<Bar> ensures OutcomeAt(q, bars + later, i) == OutcomeAt(q, bars, i) {
        FirstTouchAt(bars, upper, lower, i + 1, i + 1 + q.horizon, first);
        FirstTouchAt(bars + later, upper, lower, i + 1, i + 1 + q.horizon, first);
      }
    } else {
      var x := Spike(bars[|bars| - 1], upper, lower);
      NoTouch(bars, upper, lower, i + 1, i + 1 + q.horizon);
      FirstTouchAt(bars + [x], upper, lower, i + 1, i + 1 + q.horizon, |bars|);
      assert OutcomeAt(q, bars + [x], i) == 1 && OutcomeAt(q, bars, i) == 0;
    }
  }

  // ------------------------------------------------------------- the horizon trim

  /** `labels[: max(0, len(labels) - horizon)]`. */
  function Trim(labels: seq<Label>, horizon: nat): seq<Label> {
    if |labels| <= horizon then [] else labels[..|labels| - horizon]
  }

  lemma SortedExtension(bars: seq<Bar>, later: seq<Bar>)
    requires forall x, y :: x in bars && y in later ==> x.time <= y.time
    ensures TimeSort(bars + later) == TimeSort(bars) + TimeSort(later)
  {
    SortAppend(bars, later, TimeLeq);
  }

  /** Every label that survives the trim keeps its value, and its place, under any later data. */
  lemma TrimmedLabelsAreStable(q: Barriers, bars: seq<Bar>, later: seq<Bar>)
    requires q.horizon >= 1
    requires forall x, y :: x in bars && y in later ==> x.time <= y.time
    ensures Trim(LabelsOf(q, TimeSort(bars)), q.horizon) <= LabelsOf(q, TimeSort(bars + later))
  {
    hide LabelAt, SortBy;
    SortedExtension(bars, later);
    var xs, ys := TimeSort(bars), TimeSort(bars) + TimeSort(later);
    forall i | 0 <= i < |xs| - q.horizon ensures LabelAt(q, xs, i) == LabelAt(q, ys, i) {
      SplitAppend(xs, TimeSort(later), i + 1 + q.horizon);
      CompleteLabelIsFixed(q, xs, ys, i);
    }
  }

  lemma {:induction false} FilterPrefix(xs: seq<Label>, ys: seq<Label>, p: Label -> bool)
    requires xs <= ys
    ensures Filter(xs, p) <= Filter(ys, p)
  {
    assert ys == xs + ys[|xs|..];
    FilterAppend(xs, ys[|xs|..], p);
  }

  /** The same in directional mode, where the trim comes after the flat rows are dropped: what it
      cuts still covers every label whose horizon is incomplete. */
  lemma TrimmedDirectionalIsStable(q: Barriers, bars: seq<Bar>, later: seq<Bar>)
    requires q.horizon >= 1
    requires forall x, y :: x in bars && y in later ==> x.time <= y.time
    ensures Trim(Filter(LabelsOf(q, TimeSort(bars)), NotFlat()), q.horizon)
         <= Filter(LabelsOf(q, TimeSort(bars + later)), NotFlat())
  {
    hide LabelsOf, SortBy, Filter;
    var all := LabelsOf(q, TimeSort(bars));
    var kept := Filter(all, NotFlat());
    if |kept| > q.horizon {
      var n := |all| - q.horizon;
      assert all == all[..n] + all[n..];
      FilterAppend(all[..n], all[n..], NotFlat());
      var front, tail := Filter(all[..n], NotFlat()), Filter(all[n..], NotFlat());
      assert |tail| <= q.horizon && kept == front + tail;
      assert kept[..|kept| - q.horizon] <= front;
      TrimmedLabelsAreStable(q, bars, later);
      FilterPrefix(all[..n], LabelsOf(q, TimeSort(bars + later)), NotFlat());
    }
  }

}
