/** Drawdown as a property of a whole equity path, and the proof that the incremental gate
    of the risk manager and the report's own loop both compute it
    (metrics/returns.py, metrics/performance.py, paper/report.py, mre/risk.py). */
module Drawdown {
  import opened Collections
  import opened Market
  import opened Risk

  /** Highest value among the first `k + 1`. */
  function Peak(values: seq<real>, k: nat): real
    requires k < |values|
  {
    if k == 0 then values[0] else Max(Peak(values, k - 1), values[k])
  }

  lemma {:induction false} PeakIsGreatest(values: seq<real>, k: nat) returns (i: nat)
    requires k < |values|
    ensures i <= k && values[i] == Peak(values, k)
    ensures forall j :: 0 <= j <= k ==> values[j] <= Peak(values, k)
  {
    if k == 0 {
      i := 0;
    } else {
      i := PeakIsGreatest(values, k - 1);
      if values[k] > values[i] {
        i := k;
      }
    }
  }

  function DrawdownAt(values: seq<real>, k: nat): real
    requires k < |values|
  {
    var peak := Peak(values, k);
    if peak > 0.0 then values[k] / peak - 1.0 else 0.0
  }

  function MinOf(xs: seq<real>): (m: real)
    requires xs != []
    ensures m in xs && forall x :: x in xs ==> m <= x
  {
    if |xs| == 1 then xs[0]
    else
      var m := MinOf(xs[1..]);
      assert forall x :: x in xs ==> x == xs[0] || x in xs[1..];
      if xs[0] <= m then xs[0] else m
  }

  function DrawdownSeries(values: seq<real>): (ds: seq<real>)
    ensures |ds| == |values|
    ensures forall k :: 0 <= k < |ds| ==> ds[k] == DrawdownAt(values, k)
  {
    seq(|values|, k requires 0 <= k < |values| => DrawdownAt(values, k))
  }

  function MaxDrawdown(values: seq<real>): real {
    if values == [] then 0.0 else Abs(MinOf(DrawdownSeries(values)))
  }

  /** The declarative meaning: some value fell by more than the fraction `limit` from an
      earlier positive one. */
  ghost predicate FellBy(values: seq<real>, limit: real) {
    exists i, j :: 0 <= i <= j < |values| && values[i] > 0.0 && values[j] < (1.0 - limit) * values[i]
  }

  /** Some step of the running peak breaches the limit. */
  ghost predicate SomeBreach(values: seq<real>, limit: real) {
    exists k :: 0 <= k < |values| && Breaches(Peak(values, k), values[k], limit)
  }

  lemma DrawdownAtIsDip(values: seq<real>, k: nat, limit: real)
    requires k < |values| && limit >= 0.0
    ensures DrawdownAt(values, k) < -limit <==> Breaches(Peak(values, k), values[k], limit)
  {
  }

  lemma DrawdownAtNotPositive(values: seq<real>, k: nat)
    requires k < |values|
    ensures DrawdownAt(values, k) <= 0.0
    ensures k == 0 ==> DrawdownAt(values, k) == 0.0
  {
    var peak := Peak(values, k);
    var top := PeakIsGreatest(values, k);
    if peak > 0.0 {
      RatioBelow(values[k], peak, 1.0);
    }
  }

  lemma RatioBelow(v: real, peak: real, bound: real)
    requires peak > 0.0
    ensures v / peak < bound <==> v < bound * peak
    ensures v / peak == bound <==> v == bound * peak
  {
    var q := v / peak;
    assert q * peak == v;
    if q < bound {
      MulStrict(q, bound, peak);
    } else if q > bound {
      MulStrict(bound, q, peak);
    }
  }

  lemma MulStrict(a: real, b: real, p: real)
    requires a < b && p > 0.0
    ensures a * p < b * p
  {
    assert (b - a) * p > 0.0;
  }

  lemma MaxDrawdownIsMin(values: seq<real>)
    requires values != []
    ensures MaxDrawdown(values) == -MinOf(DrawdownSeries(values)) >= 0.0
  {
    DrawdownAtNotPositive(values, 0);
    assert DrawdownSeries(values)[0] in DrawdownSeries(values);
  }

  lemma MaxDrawdownIsSomeBreach(values: seq<real>, limit: real)
    requires limit >= 0.0
    ensures MaxDrawdown(values) > limit <==> SomeBreach(values, limit)
  {
    if values != [] {
      var ds := DrawdownSeries(values);
      MaxDrawdownIsMin(values);
      if k :| 0 <= k < |values| && Breaches(Peak(values, k), values[k], limit) {
        DrawdownAtIsDip(values, k, limit);
        assert ds[k] in ds;
      }
      var k :| 0 <= k < |ds| && ds[k] == MinOf(ds);
      DrawdownAtIsDip(values, k, limit);
    }
  }

  lemma BreachMeansBelow(peak: real, v: real, limit: real)
    requires peak > 0.0
    ensures Breaches(peak, v, limit) <==> v < (1.0 - limit) * peak
  {
    RatioBelow(v, peak, 1.0 - limit);
  }

  /** The reported maximum drawdown exceeds a fraction exactly when the path really fell by
      more than that fraction from some earlier point. */
  lemma MaxDrawdownIsLargestFall(values: seq<real>, limit: real)
    requires 0.0 <= limit <= 1.0
    ensures MaxDrawdown(values) > limit <==> FellBy(values, limit)
  {
    MaxDrawdownIsSomeBreach(values, limit);
    if SomeBreach(values, limit) {
      BreachIsAFall(values, limit);
    }
    if FellBy(values, limit) {
      FallIsABreach(values, limit);
    }
  }

  lemma BreachIsAFall(values: seq<real>, limit: real)
    requires SomeBreach(values, limit)
    ensures FellBy(values, limit)
  {
    var k :| 0 <= k < |values| && Breaches(Peak(values, k), values[k], limit);
    var i := PeakIsGreatest(values, k);
    BreachMeansBelow(Peak(values, k), values[k], limit);
    FellByWitness(values, i, k, limit);
  }

  lemma FellByWitness(values: seq<real>, i: nat, j: nat, limit: real)
    requires i <= j < |values| && values[i] > 0.0 && values[j] < (1.0 - limit) * values[i]
    ensures FellBy(values, limit)
  {
  }

  lemma FallIsABreach(values: seq<real>, limit: real)
    requires FellBy(values, limit) && limit <= 1.0
    ensures SomeBreach(values, limit)
  {
    var i, j :| 0 <= i <= j < |values| && values[i] > 0.0 && values[j] < (1.0 - limit) * values[i];
    var top := PeakIsGreatest(values, j);
    FallFromLower(values[i], Peak(values, j), values[j], limit);
  }

  lemma FallFromLower(low: real, peak: real, v: real, limit: real)
    requires 0.0 < low <= peak && limit <= 1.0 && v < (1.0 - limit) * low
    ensures Breaches(peak, v, limit)
  {
    assert (1.0 - limit) * (peak - low) >= 0.0;
    BreachMeansBelow(peak, v, limit);
  }

  /** "A fraction in [0, 1]" holds exactly when the account never goes below zero after having
      been above it. */
  lemma MaxDrawdownIsAFraction(values: seq<real>)
    ensures MaxDrawdown(values) >= 0.0
    ensures MaxDrawdown(values) <= 1.0
            <==> !exists i, j :: 0 <= i <= j < |values| && values[i] > 0.0 && values[j] < 0.0
  {
    MaxDrawdownIsLargestFall(values, 1.0);
    if i, j :| 0 <= i <= j < |values| && values[i] > 0.0 && values[j] < 0.0 {
      assert values[j] < (1.0 - 1.0) * values[i];
    }
  }

  /** From 1 to -1 the "fraction" is 2. */
  lemma DrawdownPastOne()
    ensures MaxDrawdown([1.0, -1.0]) == 2.0
  {
    var values := [1.0, -1.0];
    assert [1.0] + [-1.0] == values;
    MaxDrawdownNext([], 1.0);
    assert [] + [1.0] == [1.0];
    MaxDrawdownNext([1.0], -1.0);
  }

  method ComputeDrawdownSeries(values: seq<real>) returns (out: seq<real>)
    ensures out == DrawdownSeries(values)
  {
    out := [];
    if values == [] {
      return;
    }
    var peak := values[0];
    for i := 0 to |values|
      invariant peak == if i == 0 then values[0] else Peak(values, i - 1)
      invariant |out| == i && forall k :: 0 <= k < i ==> out[k] == DrawdownAt(values, k)
    {
      peak := Max(peak, values[i]);
      out := out + [if peak > 0.0 then values[i] / peak - 1.0 else 0.0];
    }
  }

  /** The paper report's own loop: the same quantity, in percent. */
  method ReportMaxDrawdownPct(equities: seq<real>) returns (maxDd: real)
    ensures maxDd == 100.0 * MaxDrawdown(equities)
  {
    var peak: Option<real> := None;
    maxDd := 0.0;
    for i := 0 to |equities|
      invariant peak == if i == 0 then None else Some(Peak(equities, i - 1))
      invariant maxDd == 100.0 * MaxDrawdown(equities[..i])
    {
      var e := equities[i];
      ReportStep(equities, i);
      if peak.None? || e > peak.value {
        peak := Some(e);
      }
      assert peak.value == Peak(equities, i);
      if peak.value != 0.0 && peak.value > 0.0 {
        var dd := (1.0 - e / peak.value) * 100.0;
        assert dd == 100.0 * -DrawdownAt(equities, i);
        maxDd := Max(maxDd, dd);
      }
    }
    assert equities[..|equities|] == equities;
  }

  lemma ReportStep(equities: seq<real>, i: nat)
    requires i < |equities|
    ensures MaxDrawdown(equities[..i]) >= 0.0
    ensures MaxDrawdown(equities[..i + 1]) == Max(MaxDrawdown(equities[..i]), -DrawdownAt(equities, i))
  {
    var all := equities[..i + 1];
    assert all == equities[..i] + [equities[i]];
    MaxDrawdownNext(equities[..i], equities[i]);
    PeakAgrees(all, equities, i);
    assert DrawdownAt(all, i) == DrawdownAt(equities, i);
    if i > 0 {
      MaxDrawdownIsMin(equities[..i]);
    }
  }

  lemma {:induction false} PeakAgrees(a: seq<real>, b: seq<real>, k: nat)
    requires k < |a| && k < |b| && a[..k + 1] == b[..k + 1]
    ensures Peak(a, k) == Peak(b, k)
  {
    assert a[k] == a[..k + 1][k] == b[..k + 1][k] == b[k];
    if k > 0 {
      assert a[..k] == a[..k + 1][..k] == b[..k + 1][..k] == b[..k];
      PeakAgrees(a, b, k - 1);
    }
  }

  /** One more value: the maximum drawdown is the larger of the old one and the new dip. */
  lemma MaxDrawdownNext(values: seq<real>, e: real)
    ensures MaxDrawdown(values + [e])
            == Max(MaxDrawdown(values), -DrawdownAt(values + [e], |values|))
  {
    var all := values + [e];
    var n := |values|;
    var ds, ds' := DrawdownSeries(values), DrawdownSeries(all);
    SeriesPrefix(values, e);
    MinAppend(ds, ds'[n]);
    MaxDrawdownIsMin(all);
    DrawdownAtNotPositive(all, n);
    if values != [] {
      MaxDrawdownIsMin(values);
    }
  }

  lemma SeriesPrefix(values: seq<real>, e: real)
    ensures var all := values + [e];
      DrawdownSeries(all) == DrawdownSeries(values) + [DrawdownAt(all, |values|)]
  {
    var all := values + [e];
    forall k | 0 <= k < |values| ensures DrawdownAt(all, k) == DrawdownAt(values, k) {
      PeakAgrees(all, values, k);
    }
  }

  lemma {:induction false} MinAppend(xs: seq<real>, x: real)
    ensures MinOf(xs + [x]) == if xs == [] || x <= MinOf(xs) then x else MinOf(xs)
  {
    var m := MinOf(xs + [x]);
    assert x in xs + [x];
    if xs != [] {
      assert MinOf(xs) in xs + [x];
    }
  }

  // ----------------------------------------------------- the incremental gate

  /** The gate after a sequence of updates with the given period keys and equities. */
  function GateAfter(initial: real, keys: seq<int>, equities: seq<real>, limit: real): Gate
    requires |keys| == |equities|
  {
    if keys == [] then Gate(None, initial, false)
    else
      var n := |keys| - 1;
      GateUpdate(GateAfter(initial, keys[..n], equities[..n], limit), keys[n], equities[n], limit)
  }

  /** Start of the maximal suffix on which the key equals the last one. */
  function RunStart(keys: seq<int>): (s: nat)
    requires keys != []
    ensures s < |keys|
    ensures forall i :: s <= i < |keys| ==> keys[i] == keys[|keys| - 1]
    ensures s > 0 ==> keys[s - 1] != keys[|keys| - 1]
  {
    var n := |keys| - 1;
    if n == 0 || keys[n - 1] != keys[n] then n else RunStart(keys[..n])
  }

  /** The incremental gate is active exactly when the maximum drawdown of the current period's
      equity path exceeds the limit; its high-water mark is that path's peak. The account's
      initial equity plays no part: the first update starts a path. */
  lemma {:induction false} HaltIsMaxDrawdown(initial: real, keys: seq<int>, equities: seq<real>, limit: real)
    requires |keys| == |equities| > 0 && limit > 0.0
    ensures var run := equities[RunStart(keys)..];
      GateAfter(initial, keys, equities, limit)
      == Gate(Some(keys[|keys| - 1]), Peak(run, |run| - 1), MaxDrawdown(run) > limit)
  {
    hide MaxDrawdown, Breaches;
    var n := |keys| - 1;
    var s := RunStart(keys);
    if n > 0 {
      HaltIsMaxDrawdown(initial, keys[..n], equities[..n], limit);
    }
    if s == n {
      assert equities[s..] == [equities[n]];
      GateStarts(equities[n], limit);
    } else {
      assert equities[s..] == equities[..n][s..] + [equities[n]];
      GateContinues(equities[..n][s..], equities[n], keys[n], limit);
    }
  }

  lemma GateStarts(e: real, limit: real)
    requires limit > 0.0
    ensures !Breaches(e, e, limit) && MaxDrawdown([e]) == 0.0 && Peak([e], 0) == e
  {
    MaxDrawdownNext([], e);
    assert [] + [e] == [e];
    DrawdownAtNotPositive([e], 0);
    DrawdownAtIsDip([e], 0, limit);
  }

  lemma GateContinues(run: seq<real>, e: real, key: int, limit: real)
    requires run != [] && limit > 0.0
    ensures var all := run + [e];
      GateUpdate(Gate(Some(key), Peak(run, |run| - 1), MaxDrawdown(run) > limit), key, e, limit)
      == Gate(Some(key), Peak(all, |run|), MaxDrawdown(all) > limit)
  {
    var all := run + [e];
    PeakAgrees(all, run, |run| - 1);
    MaxDrawdownNext(run, e);
    DrawdownAtIsDip(all, |run|, limit);
  }

  // ----------------------------------------------------- the layered risk manager

  function KeysOf(points: seq<EquityPoint>, key: int -> int): (ks: seq<int>)
  {
    seq(|points|, i requires 0 <= i < |points| => key(points[i].time))
  }

  function EquitiesOf(points: seq<EquityPoint>): (es: seq<real>)
  {
    seq(|points|, i requires 0 <= i < |points| => points[i].equity)
  }

  function RiskAfter(initial: real, cal: Calendar, limits: Limits, points: seq<EquityPoint>): RiskState {
    if points == [] then NewRisk(initial)
    else
      var p := points[|points| - 1];
      RiskUpdate(RiskAfter(initial, cal, limits, points[..|points| - 1]), cal, limits, p.time, p.equity)
  }

  lemma {:induction false} RiskIsThreeGates(initial: real, cal: Calendar, limits: Limits, points: seq<EquityPoint>)
    ensures var r := RiskAfter(initial, cal, limits, points);
      && r.daily == GateAfter(initial, KeysOf(points, cal.day), EquitiesOf(points), limits.daily)
      && r.weekly == GateAfter(initial, KeysOf(points, cal.week), EquitiesOf(points), limits.weekly)
      && r.monthly == GateAfter(initial, KeysOf(points, cal.month), EquitiesOf(points), limits.monthly)
  {
    if points != [] {
      var n := |points| - 1;
      RiskIsThreeGates(initial, cal, limits, points[..n]);
      assert KeysOf(points, cal.day)[..n] == KeysOf(points[..n], cal.day);
      assert KeysOf(points, cal.week)[..n] == KeysOf(points[..n], cal.week);
      assert KeysOf(points, cal.month)[..n] == KeysOf(points[..n], cal.month);
      assert EquitiesOf(points)[..n] == EquitiesOf(points[..n]);
    }
  }

  /** The equity path of the current period, as the given calendar key sees it. */
  function CurrentRun(points: seq<EquityPoint>, key: int -> int): seq<real>
    requires points != []
  {
    EquitiesOf(points)[RunStart(KeysOf(points, key))..]
  }

  /** Which reasons halt trading after any sequence of updates, in the terms of the limits. */
  lemma HaltedExactlyWhenFallen(initial: real, cal: Calendar, limits: Limits, points: seq<EquityPoint>)
    requires LimitsOk(limits) && points != []
    ensures var halted := Halted(RiskAfter(initial, cal, limits, points));
      && (DailyDd in halted <==> FellBy(CurrentRun(points, cal.day), limits.daily))
      && (WeeklyDd in halted <==> FellBy(CurrentRun(points, cal.week), limits.weekly))
      && (MonthlyDd in halted <==> FellBy(CurrentRun(points, cal.month), limits.monthly))
  {
    hide MaxDrawdown, Peak, Breaches, GateAfter, FellBy;
    RiskIsThreeGates(initial, cal, limits, points);
    HaltIsMaxDrawdown(initial, KeysOf(points, cal.day), EquitiesOf(points), limits.daily);
    HaltIsMaxDrawdown(initial, KeysOf(points, cal.week), EquitiesOf(points), limits.weekly);
    HaltIsMaxDrawdown(initial, KeysOf(points, cal.month), EquitiesOf(points), limits.monthly);
    MaxDrawdownIsLargestFall(CurrentRun(points, cal.day), limits.daily);
    MaxDrawdownIsLargestFall(CurrentRun(points, cal.week), limits.weekly);
    MaxDrawdownIsLargestFall(CurrentRun(points, cal.month), limits.monthly);
  }

  predicate ActiveAfter(initial: real, cal: Calendar, limits: Limits, points: seq<EquityPoint>, reason: Reason) {
    reason in Halted(RiskAfter(initial, cal, limits, points))
  }

  /** The reasons a result reports are those that were active after at least one update. */
  lemma {:induction false} ReasonsEverSeen(initial: real, cal: Calendar, limits: Limits, points: seq<EquityPoint>, reason: Reason)
    ensures reason in RiskAfter(initial, cal, limits, points).ever
            <==> exists n :: 0 <= n <= |points| && ActiveAfter(initial, cal, limits, points[..n], reason)
  {
    hide GateUpdate;
    if points == [] {
      assert points[..0] == points;
    } else {
      var m := |points| - 1;
      ReasonsEverSeen(initial, cal, limits, points[..m], reason);
      assert forall n :: 0 <= n <= m ==> points[..m][..n] == points[..n];
      assert points[..|points|] == points;
    }
  }
}
