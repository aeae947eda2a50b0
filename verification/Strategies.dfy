/** Features, model-driven strategies and the paper bundles built from them
    (features/protocol.py, strategies/model_driven.py, strategies/binary_model_driven.py,
    paper/predictor.py). */
module Strategies {
  import opened Collections
  import opened Market
  import opened Source
  import opened Backtest
  import opened ReplaySafety
  import opened Commitment
  import opened Tracking

  /** A feature: its id, declared lookback, availability delay and pure compute function. */
  datatype Feature = Feature(id: string, lookback: nat, delay: int, compute: seq<Bar> -> Option<real>)

  /** The feature contract: nothing below the lookback, and nothing read beyond it. */
  ghost predicate Contract(f: Feature) {
    && f.lookback > 0
    && (forall h: seq<Bar> :: |h| < f.lookback ==> f.compute(h) == None)
    && (forall h: seq<Bar> :: |h| >= f.lookback ==> f.compute(h) == f.compute(LastN(h, f.lookback)))
  }

  datatype Class = Down | Flat | Up

  /** Class probabilities in the classifier's order; the directional model leaves `flat` unused. */
  datatype Probs = Probs(down: real, flat: real, up: real)

  datatype Mode = ThreeClass | Directional

  datatype Bundle = Bundle(
    symbol: string, interval: Interval, mode: Mode, features: seq<Feature>,
    predict: map<string, real> -> Probs, calibrate: Option<Probs -> Probs>,
    threshold: real, notional: real, allowShort: bool)

  predicate BundleOk(u: Bundle) {
    && u.features != []
    && (forall i :: 0 <= i < |u.features| ==> u.features[i].lookback > 0)
    && 0.0 < u.notional <= 1.0
    && (if u.mode.ThreeClass? then 0.0 < u.threshold <= 1.0 else 0.5 < u.threshold <= 1.0)
  }

  // ------------------------------------------------------------- the feature vector

  function OnlineValue(f: Feature, symbol: string, interval: Interval, v: View): Option<real>
    requires f.lookback > 0
  {
    f.compute(History(v, symbol, interval, f.lookback))
  }

  /** All features at the view's clock, or nothing when one is undefined. */
  function FeatureVector(features: seq<Feature>, symbol: string, interval: Interval, v: View): Option<map<string, real>>
    requires forall i :: 0 <= i < |features| ==> features[i].lookback > 0
  {
    if features == [] then Some(map[])
    else
      var n := |features| - 1;
      match FeatureVector(features[..n], symbol, interval, v)
      case None => None
      case Some(fv) =>
        match OnlineValue(features[n], symbol, interval, v)
        case None => None
        case Some(x) => Some(fv[features[n].id := x])
  }

  lemma {:induction false} VectorUndefinedFrom(
      features: seq<Feature>, n: nat, symbol: string, interval: Interval, v: View)
    requires n <= |features| && forall i :: 0 <= i < |features| ==> features[i].lookback > 0
    requires FeatureVector(features[..n], symbol, interval, v) == None
    ensures FeatureVector(features, symbol, interval, v) == None
    decreases |features|
  {
    if n < |features| {
      var m := |features| - 1;
      assert features[..m][..n] == features[..n];
      VectorUndefinedFrom(features[..m], n, symbol, interval, v);
    } else {
      assert features[..n] == features;
    }
  }

  /** The vector is defined exactly when every feature is. */
  lemma {:induction false} VectorDefinedIff(features: seq<Feature>, symbol: string, interval: Interval, v: View)
    requires forall i :: 0 <= i < |features| ==> features[i].lookback > 0
    ensures FeatureVector(features, symbol, interval, v).Some?
      <==> forall i :: 0 <= i < |features| ==> OnlineValue(features[i], symbol, interval, v).Some?
  {
    if features != [] {
      VectorDefinedIff(features[..|features| - 1], symbol, interval, v);
    }
  }

  lemma VectorNext(features: seq<Feature>, i: nat, symbol: string, interval: Interval, v: View)
    requires i < |features| && forall k :: 0 <= k < |features| ==> features[k].lookback > 0
    ensures FeatureVector(features[..i + 1], symbol, interval, v) ==
      match FeatureVector(features[..i], symbol, interval, v)
      case None => None
      case Some(fv) =>
        match features[i].compute(History(v, symbol, interval, features[i].lookback))
        case None => None
        case Some(x) => Some(fv[features[i].id := x])
  {
    hide History;
    assert features[..i + 1][..i] == features[..i];
  }

  lemma VectorOfNone(symbol: string, interval: Interval, v: View)
    ensures FeatureVector([], symbol, interval, v) == Some(map[])
  {
  }

  method ComputeFeatureVector(features: seq<Feature>, symbol: string, interval: Interval, source: MarketReplaySource)
    returns (fv: Option<map<string, real>>)
    requires source.Valid()
    requires forall i :: 0 <= i < |features| ==> features[i].lookback > 0
    ensures fv == FeatureVector(features, symbol, interval, source.Value())
  {
    hide FeatureVector, History;
    var vector: map<string, real> := map[];
    assert features[..0] == [];
    VectorOfNone(symbol, interval, source.Value());
    for i := 0 to |features|
      invariant FeatureVector(features[..i], symbol, interval, source.Value()) == Some(vector)
    {
      VectorNext(features, i, symbol, interval, source.Value());
      var history := source.HistoryOf(symbol, interval, features[i].lookback);
      match features[i].compute(history)
      case None =>
        VectorUndefinedFrom(features, i + 1, symbol, interval, source.Value());
        return None;
      case Some(x) =>
        vector := vector[features[i].id := x];
    }
    assert features[..|features|] == features;
    return Some(vector);
  }

  // ------------------------------------------------------------- the strategies' rule

  function ProbsOf(u: Bundle, fv: map<string, real>): Probs {
    var raw := u.predict(fv);
    if u.calibrate.Some? then u.calibrate.value(raw) else raw
  }

  /** First maximum in the order down, flat, up. */
  function ArgMax(p: Probs): Class {
    if p.down >= p.flat && p.down >= p.up then Down
    else if p.flat >= p.up then Flat
    else Up
  }

  function ProbOf(p: Probs, c: Class): real {
    match c case Down => p.down case Flat => p.flat case Up => p.up
  }

  /** Full-size position: a fraction of equity at the bar's close. */
  function SizeOf(u: Bundle, equity: real, close: real): real {
    if close == 0.0 then 0.0 else equity * u.notional / close
  }

  function TargetQty(u: Bundle, p: Probs, equity: real, close: real): real {
    match u.mode
    case ThreeClass =>
      var best := ArgMax(p);
      if ProbOf(p, best) < u.threshold then 0.0
      else if best.Up? then SizeOf(u, equity, close)
      else if best.Down? then (if !u.allowShort then 0.0 else SizeOf(u, -equity, close))
      else 0.0
    case Directional =>
      if p.up > u.threshold then SizeOf(u, equity, close)
      else if p.up < 1.0 - u.threshold then (if !u.allowShort then 0.0 else SizeOf(u, -equity, close))
      else 0.0
  }

  function OnBar(u: Bundle, b: Bar, v: View, s: Snapshot): seq<Target>
    requires BundleOk(u)
  {
    if b.symbol != u.symbol then []
    else
      match FeatureVector(u.features, u.symbol, u.interval, v)
      case None => []
      case Some(fv) => [Target(u.symbol, TargetQty(u, ProbsOf(u, fv), SnapshotEquity(s), b.close))]
  }

  method RunOnBar(u: Bundle, b: Bar, source: MarketReplaySource, s: Snapshot) returns (targets: seq<Target>)
    requires BundleOk(u) && source.Valid()
    ensures targets == OnBar(u, b, source.Value(), s)
  {
    if b.symbol != u.symbol {
      return [];
    }
    var fv := ComputeFeatureVector(u.features, u.symbol, u.interval, source);
    if fv.None? {
      return [];
    }
    var probs := ProbsOf(u, fv.value);
    return [Target(u.symbol, TargetQty(u, probs, SnapshotEquity(s), b.close))];
  }

  /** A target never commands more than the configured fraction of equity, long or short. */
  lemma TargetIsBounded(u: Bundle, p: Probs, equity: real, close: real)
    requires BundleOk(u)
    ensures Abs(TargetQty(u, p, equity, close) * close) <= u.notional * Abs(equity) <= Abs(equity)
  {
    hide DirectionOf, ArgMax, ProbOf;
    SizeTimesClose(u, equity, close);
    SizeTimesClose(u, -equity, close);
  }

  lemma SizeTimesClose(u: Bundle, equity: real, close: real)
    requires 0.0 < u.notional
    ensures Abs(SizeOf(u, equity, close) * close) <= u.notional * Abs(equity)
  {
    if close != 0.0 {
      assert SizeOf(u, equity, close) * close == equity * u.notional;
    }
  }

  // ------------------------------------------------------------- the paper engine's decision

  datatype Direction = Long | Short | NoPosition

  /** What the journal records of a decision; `Warmup` when some feature is undefined. */
  datatype Decision =
    | Warmup
    | Decided(chosen: Class, direction: Direction, confidence: real, meets: bool, targetQty: real)

  /** The predictor's own restatement of the strategies' rule. */
  function DirectionOf(u: Bundle, p: Probs): (Class, Direction, real, bool) {
    match u.mode
    case ThreeClass =>
      var chosen := ArgMax(p);
      var conf := ProbOf(p, chosen);
      var meets := conf >= u.threshold;
      if !meets || chosen.Flat? then (chosen, NoPosition, conf, meets)
      else if chosen.Down? && !u.allowShort then (chosen, NoPosition, conf, meets)
      else (chosen, if chosen.Up? then Long else Short, conf, meets)
    case Directional =>
      if p.up > u.threshold then (Up, Long, p.up, true)
      else if p.up < 1.0 - u.threshold then (Down, if !u.allowShort then NoPosition else Short, 1.0 - p.up, true)
      else
        var conf := if p.up >= 1.0 - p.up then p.up else 1.0 - p.up;
        (if p.up >= 0.5 then Up else Down, NoPosition, conf, false)
  }

  function Decide(u: Bundle, b: Bar, v: View, s: Snapshot): Decision
    requires BundleOk(u)
  {
    match FeatureVector(u.features, u.symbol, u.interval, v)
    case None => Warmup
    case Some(fv) =>
      var (chosen, direction, conf, meets) := DirectionOf(u, ProbsOf(u, fv));
      var targets := OnBar(u, b, v, s);
      Decided(chosen, direction, conf, meets, if targets != [] then targets[0].qty else 0.0)
  }

  method RunDecide(u: Bundle, b: Bar, source: MarketReplaySource, s: Snapshot) returns (d: Decision)
    requires BundleOk(u) && source.Valid()
    ensures d == Decide(u, b, source.Value(), s)
  {
    var fv := ComputeFeatureVector(u.features, u.symbol, u.interval, source);
    if fv.None? {
      return Warmup;
    }
    var (chosen, direction, conf, meets) := DirectionOf(u, ProbsOf(u, fv.value));
    var targets := RunOnBar(u, b, source, s);
    return Decided(chosen, direction, conf, meets, if targets != [] then targets[0].qty else 0.0);
  }

  /** On a bar of the bundle's own symbol the engine's decision carries exactly the strategy's
      answer: warm-up when it has none, and its one target otherwise. */
  lemma DecisionCarriesTheTarget(u: Bundle, b: Bar, v: View, s: Snapshot)
    requires BundleOk(u) && b.symbol == u.symbol
    ensures OnBar(u, b, v, s) ==
      match Decide(u, b, v, s)
      case Warmup => []
      case Decided(_, _, _, _, qty) => [Target(u.symbol, qty)]
  {
  }

  predicate Agrees(direction: Direction, qty: real) {
    match direction
    case Long => qty > 0.0
    case Short => qty < 0.0
    case NoPosition => qty == 0.0
  }

  lemma SizeSign(u: Bundle, equity: real, close: real)
    requires u.notional > 0.0
    ensures SizeOf(u, equity, close) > 0.0 <==> equity * close > 0.0
    ensures SizeOf(u, equity, close) < 0.0 <==> equity * close < 0.0
  {
    if close != 0.0 {
      var q := SizeOf(u, equity, close);
      assert q * close == equity * u.notional;
      var x, y := q * close, equity * u.notional;
      assert (x > 0.0 <==> equity > 0.0) && (x < 0.0 <==> equity < 0.0);
      ProductSign(q, close);
      ProductSign(equity, close);
    }
  }

  lemma ProductSign(x: real, y: real)
    ensures x * y > 0.0 <==> (x > 0.0 && y > 0.0) || (x < 0.0 && y < 0.0)
    ensures x * y < 0.0 <==> (x > 0.0 && y < 0.0) || (x < 0.0 && y > 0.0)
  {
  }

  /** The journalled direction and the executed target agree exactly when the decision is flat
      or equity and close have the same sign: an account under water turns a journalled LONG
      into a short order. */
  lemma DirectionAgreesIff(u: Bundle, b: Bar, v: View, s: Snapshot)
    requires BundleOk(u) && b.symbol == u.symbol && Decide(u, b, v, s).Decided?
    ensures var d := Decide(u, b, v, s);
      Agrees(d.direction, d.targetQty)
      <==> d.direction.NoPosition? || SnapshotEquity(s) * b.close > 0.0
  {
    var e := SnapshotEquity(s);
    SizeSign(u, e, b.close);
    SizeSign(u, -e, b.close);
    ProductSign(e, b.close);
    ProductSign(-e, b.close);
  }

  /** Sure to go up, whatever it is shown. */
  function Bull(): Bundle {
    Bundle("B", Min1, Directional, [Feature("one", 1, 0, (h: seq<Bar>) => Some(1.0))],
           (fv: map<string, real>) => Probs(0.0, 0.0, 1.0), None, 0.75, 1.0, false)
  }

  /** With equity at -100 the journalled LONG executes as a short of 100. */
  lemma LongIntoShort(v: View)
    ensures BundleOk(Bull())
    ensures var b := Bar("B", Min1, 0, 1.0, 1.0, 1.0, 1.0, 1.0, 1.0);
      var d := Decide(Bull(), b, v, Snapshot(-100.0, Book([], map[]), map[]));
      d.Decided? && d.direction.Long? && d.targetQty == -100.0
  {
    hide History;
    var u := Bull();
    assert u.features[..0] == [];
    VectorOfNone("B", Min1, v);
    assert u.features[..0 + 1] == u.features;
    VectorNext(u.features, 0, "B", Min1, v);
  }

  // ------------------------------------------------------------- the backtest's view of them

  ghost predicate BundlesOk(bundles: map<string, Bundle>) {
    forall s :: s in bundles ==> BundleOk(bundles[s]) && bundles[s].symbol == s
  }

  /** The per-symbol strategies as one strategy, dispatched by the bar's symbol. */
  ghost predicate Dispatches(strategy: Strategy<()>, bundles: map<string, Bundle>)
    requires BundlesOk(bundles)
  {
    forall b: Bar, v: View, s: Snapshot ::
      strategy((), b, v, s) == ((), if b.symbol in bundles then OnBar(bundles[b.symbol], b, v, s) else [])
  }

  lemma {:induction false} VectorIsPointInTime(features: seq<Feature>, symbol: string, interval: Interval, v: View, w: View)
    requires forall i :: 0 <= i < |features| ==> features[i].lookback > 0
    requires SameHistory(v, w)
    ensures FeatureVector(features, symbol, interval, v) == FeatureVector(features, symbol, interval, w)
  {
    if features != [] {
      VectorIsPointInTime(features[..|features| - 1], symbol, interval, v, w);
    }
  }

  /** The model-driven strategies satisfy what the replay theorems ask of a strategy: they read
      only history, and they target only their own symbol, once. */
  lemma StrategiesQualify(strategy: Strategy<()>, bundles: map<string, Bundle>)
    requires BundlesOk(bundles) && Dispatches(strategy, bundles)
    ensures PointInTime(strategy) && OwnSymbol(strategy) && NamesOnce(strategy)
  {
    forall mind: (), b: Bar, v: View, w: View, p: Snapshot | SameHistory(v, w)
      ensures strategy(mind, b, v, p) == strategy(mind, b, w, p)
    {
      assert mind == ();
      if b.symbol in bundles {
        VectorIsPointInTime(bundles[b.symbol].features, b.symbol, bundles[b.symbol].interval, v, w);
      }
    }
    forall mind: (), b: Bar, v: View, p: Snapshot
      ensures var targets := strategy(mind, b, v, p).1;
        |targets| <= 1 && forall t :: t in targets ==> t.symbol == b.symbol
    {
      assert mind == ();
    }
    forall mind: (), b: Bar, v: View, p: Snapshot, s: string
      ensures |Filter(strategy(mind, b, v, p).1, TargetFor(s))| <= 1
    {
      assert |Filter(strategy(mind, b, v, p).1, TargetFor(s))| <= |strategy(mind, b, v, p).1| <= 1;
    }
  }
}
