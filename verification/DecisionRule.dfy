/** What the strategies and the predictor do with the model's probabilities, said of the
    probabilities alone (strategies/model_driven.py, strategies/binary_model_driven.py,
    paper/predictor.py). */
module DecisionRule {
  import opened Collections
  import opened Market
  import opened Source
  import opened Valuation
  import opened Strategies

  function Marks(s: Snapshot): string -> Option<real> {
    (x: string) => MarkOf(s.marks, x)
  }

  /** What a portfolio is worth: cash, and each holding at its mark. */
  function PortfolioWorth(s: Snapshot): real {
    s.cash + BookWorth(s.book, Marks(s))
  }

  lemma SnapshotIsWorth(s: Snapshot)
    ensures SnapshotEquity(s) == PortfolioWorth(s)
  {
    HeldIsWorth(s.book.symbols, s.book.qty, s.marks, Marks(s));
  }

  /** Down is most probable, ties in its favour; up only when it beats both others. */
  predicate DownWins(p: Probs) {
    p.down >= p.flat && p.down >= p.up
  }

  predicate UpWins(p: Probs) {
    p.up > p.down && p.up > p.flat
  }

  /** Long, short and flat at full size, each exactly under its own condition. */
  ghost predicate Obeys(qty: real, full: real, long: bool, short: bool) {
    && (qty == full <==> long) && (qty == -full <==> short) && (qty == 0.0 <==> !long && !short)
  }

  lemma FullSize(u: Bundle, equity: real, close: real)
    requires BundleOk(u) && equity != 0.0 && close != 0.0
    ensures SizeOf(u, equity, close) == equity * u.notional / close != 0.0
    ensures SizeOf(u, -equity, close) == -SizeOf(u, equity, close)
  {
    var x, n := equity * u.notional, u.notional;
    assert x != 0.0;
    assert (x / close) * close == x;
    assert -equity * n == -x;
    assert (-x) / close == -(x / close);
  }

  /** The three-class rule: full size long exactly when up beats both others and reaches the
      threshold, full size short exactly when shorts are allowed and down is most probable and
      reaches it, and flat otherwise. */
  lemma ThreeClassTarget(u: Bundle, b: Bar, v: View, s: Snapshot)
    requires BundleOk(u) && u.mode.ThreeClass? && u.calibrate.None? && b.symbol == u.symbol
    requires FeatureVector(u.features, u.symbol, u.interval, v).Some?
    requires PortfolioWorth(s) != 0.0 && b.close != 0.0
    ensures var p := u.predict(FeatureVector(u.features, u.symbol, u.interval, v).value);
      var targets := OnBar(u, b, v, s);
      && |targets| == 1 && targets[0].symbol == u.symbol
      && Obeys(targets[0].qty, PortfolioWorth(s) * u.notional / b.close,
               UpWins(p) && p.up >= u.threshold,
               u.allowShort && DownWins(p) && p.down >= u.threshold)
  {
    hide FeatureVector, SizeOf;
    SnapshotIsWorth(s);
    FullSize(u, PortfolioWorth(s), b.close);
  }

  /** The directional rule: the same with the probability of up, and of its absence, above the
      threshold. */
  lemma DirectionalTarget(u: Bundle, b: Bar, v: View, s: Snapshot)
    requires BundleOk(u) && u.mode.Directional? && u.calibrate.None? && b.symbol == u.symbol
    requires FeatureVector(u.features, u.symbol, u.interval, v).Some?
    requires PortfolioWorth(s) != 0.0 && b.close != 0.0
    ensures var p := u.predict(FeatureVector(u.features, u.symbol, u.interval, v).value);
      var targets := OnBar(u, b, v, s);
      && |targets| == 1 && targets[0].symbol == u.symbol
      && Obeys(targets[0].qty, PortfolioWorth(s) * u.notional / b.close,
               p.up > u.threshold, u.allowShort && 1.0 - p.up > u.threshold)
  {
    hide FeatureVector, SizeOf;
    SnapshotIsWorth(s);
    FullSize(u, PortfolioWorth(s), b.close);
  }

  /** What the journal says of a three-class decision: the most probable class, ties to down before
      flat before up; its probability; whether that reaches the threshold; and the direction the
      target takes. */
  lemma ThreeClassDecision(u: Bundle, b: Bar, v: View, s: Snapshot)
    requires BundleOk(u) && u.mode.ThreeClass? && u.calibrate.None?
    requires FeatureVector(u.features, u.symbol, u.interval, v).Some?
    ensures var p := u.predict(FeatureVector(u.features, u.symbol, u.interval, v).value);
      var d := Decide(u, b, v, s);
      && d.Decided?
      && (d.chosen.Down? <==> DownWins(p)) && (d.chosen.Up? <==> UpWins(p))
      && d.confidence >= p.down && d.confidence >= p.flat && d.confidence >= p.up
      && d.confidence == (match d.chosen case Down => p.down case Flat => p.flat case Up => p.up)
      && (d.meets <==> p.down >= u.threshold || p.flat >= u.threshold || p.up >= u.threshold)
      && (d.direction.Long? <==> UpWins(p) && p.up >= u.threshold)
      && (d.direction.Short? <==> u.allowShort && DownWins(p) && p.down >= u.threshold)
  {
    hide FeatureVector, OnBar;
  }

  /** And of a directional one: the likelier side, up at even odds; its probability; whether that
      exceeds the threshold. */
  lemma DirectionalDecision(u: Bundle, b: Bar, v: View, s: Snapshot)
    requires BundleOk(u) && u.mode.Directional? && u.calibrate.None?
    requires FeatureVector(u.features, u.symbol, u.interval, v).Some?
    ensures var up := u.predict(FeatureVector(u.features, u.symbol, u.interval, v).value).up;
      var d := Decide(u, b, v, s);
      && d.Decided?
      && d.chosen == (if up >= 0.5 then Up else Down)
      && d.confidence == Max(up, 1.0 - up)
      && (d.meets <==> d.confidence > u.threshold)
      && (d.direction.Long? <==> up > u.threshold)
      && (d.direction.Short? <==> u.allowShort && 1.0 - up > u.threshold)
  {
    hide FeatureVector, OnBar;
  }

  /** The bundle whose model answers with the calibrated probabilities outright. */
  function Recalibrated(u: Bundle, c: Probs -> Probs): Bundle {
    u.(predict := (fv: map<string, real>) => c(u.predict(fv)), calibrate := None)
  }

  /** Calibration is applied to the probabilities and to nothing else. */
  lemma CalibrationIsPrediction(u: Bundle, b: Bar, v: View, s: Snapshot)
    requires BundleOk(u) && u.calibrate.Some?
    ensures var r := Recalibrated(u, u.calibrate.value);
      && BundleOk(r)
      && OnBar(u, b, v, s) == OnBar(r, b, v, s)
      && Decide(u, b, v, s) == Decide(r, b, v, s)
  {
    hide FeatureVector, SnapshotEquity;
    var r := Recalibrated(u, u.calibrate.value);
    if FeatureVector(u.features, u.symbol, u.interval, v).Some? {
      var fv := FeatureVector(u.features, u.symbol, u.interval, v).value;
      assert ProbsOf(u, fv) == ProbsOf(r, fv);
      SameRule(u, r, ProbsOf(u, fv), SnapshotEquity(s), b.close);
    }
  }

  lemma SameRule(u: Bundle, r: Bundle, p: Probs, equity: real, close: real)
    requires r == u.(predict := r.predict, calibrate := r.calibrate)
    ensures TargetQty(u, p, equity, close) == TargetQty(r, p, equity, close)
    ensures DirectionOf(u, p) == DirectionOf(r, p)
  {
  }

  /** Without a value for every feature there is no target, and the decision is a warm-up; a bar of
      another symbol gets no target, and a decision for zero. */
  lemma NoVectorNoTarget(u: Bundle, b: Bar, v: View, s: Snapshot)
    requires BundleOk(u)
    ensures Decide(u, b, v, s).Warmup?
      <==> exists i :: 0 <= i < |u.features| && OnlineValue(u.features[i], u.symbol, u.interval, v).None?
    ensures OnBar(u, b, v, s) == [] <==> b.symbol != u.symbol || Decide(u, b, v, s).Warmup?
    ensures Decide(u, b, v, s).Decided? && b.symbol != u.symbol ==> Decide(u, b, v, s).targetQty == 0.0
  {
    VectorDefinedIff(u.features, u.symbol, u.interval, v);
  }

  /** A vector holds, under a feature's id, the value of the last feature to bear it. */
  lemma {:induction false} VectorHolds(features: seq<Feature>, i: nat, symbol: string, interval: Interval, v: View)
    requires forall k :: 0 <= k < |features| ==> features[k].lookback > 0
    requires FeatureVector(features, symbol, interval, v).Some?
    requires i < |features| && forall k :: i < k < |features| ==> features[k].id != features[i].id
    ensures var fv := FeatureVector(features, symbol, interval, v).value;
      features[i].id in fv && OnlineValue(features[i], symbol, interval, v) == Some(fv[features[i].id])
  {
    hide OnlineValue;
    var n := |features| - 1;
    if i < n {
      VectorHolds(features[..n], i, symbol, interval, v);
    }
  }
}
