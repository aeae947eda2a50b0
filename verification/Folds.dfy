/** One walk-forward fold: what its training sees (wfo/model_runner.py `_train_fold`). */
module Folds {
  import opened Collections
  import opened Market
  import opened Source
  import opened Strategies
  import opened FeatureStore
  import opened TrainServe
  import opened Labels
  import opened Splitter
  import opened PaperState

  datatype FoldConfig = FoldConfig(symbol: string, features: seq<Feature>, barriers: Barriers, directional: bool)

  /** What `train_model` is given: the labels and the point-in-time columns joined to them. */
  datatype TrainingInput = TrainingInput(labels: seq<Label>, columns: map<string, seq<Option<real>>>)

  /** A stream of the fold's store after materialising `features` over the whole timeline. */
  function FoldStream(features: seq<Feature>, symbol: string, sorted: seq<Bar>, key: Key): seq<Row> {
    if features == [] then []
    else
      var n := |features| - 1;
      StreamAfter(FoldStream(features[..n], symbol, sorted, key), Rows(features[n], symbol, sorted), key)
  }

  function FoldTable(features: seq<Feature>, symbol: string, sorted: seq<Bar>): Table {
    map key | key in (set id | id in IdsOf(features) :: (id, symbol)) :: FoldStream(features, symbol, sorted, key)
  }

  function IdsOf(features: seq<Feature>): (ids: seq<string>)
    ensures |ids| == |features| && forall i :: 0 <= i < |ids| ==> ids[i] == features[i].id
  {
    seq(|features|, i requires 0 <= i < |features| => features[i].id)
  }

  /** Labels of the training slice alone, cut by the horizon. */
  function FoldLabels(cfg: FoldConfig, split: Split, sorted: seq<Bar>): Result<seq<Label>, LabelError>
    requires 0 <= split.trainStart && 0 <= split.trainEnd
  {
    var slice := Slice(sorted, split.trainStart, split.trainEnd);
    match (if cfg.directional then DirectionalOnly(cfg.barriers, slice) else TripleBarrier(cfg.barriers, slice))
    case Failure(e) => Failure(e)
    case Success(ls) => Success(Trim(ls, if cfg.barriers.horizon >= 0 then cfg.barriers.horizon else 0))
  }

  function Columns(features: seq<Feature>, symbol: string, sorted: seq<Bar>, labels: seq<Label>): map<string, seq<Option<real>>> {
    var ids := IdsOf(features);
    map id | id in ids :: Column(FoldTable(features, symbol, sorted), labels, ids, id)
  }

  function WarmupStart(features: seq<Feature>, split: Split): (w: nat)
    ensures w <= split.testStart || w == 0
  {
    var m := MaxLookback(features);
    if split.testStart - m > 0 then split.testStart - m else 0
  }

  /** The fold's training, or nothing when it leaves no label or no bar to test on. */
  function TrainFold(cfg: FoldConfig, split: Split, sorted: seq<Bar>): Result<Option<TrainingInput>, LabelError>
    requires 0 <= split.trainStart && 0 <= split.trainEnd && 0 <= split.testEnd
  {
    match FoldLabels(cfg, split, sorted)
    case Failure(e) => Failure(e)
    case Success(labels) =>
      if labels == [] || Slice(sorted, WarmupStart(cfg.features, split), split.testEnd) == [] then Success(None)
      else Success(Some(TrainingInput(labels, Columns(cfg.features, cfg.symbol, sorted, labels))))
  }

  lemma {:induction false} FoldStreamElsewhere(features: seq<Feature>, symbol: string, sorted: seq<Bar>, key: Key)
    requires forall f :: f in features ==> (f.id, symbol) != key
    ensures FoldStream(features, symbol, sorted, key) == []
  {
    if features != [] {
      var n := |features| - 1;
      FoldStreamElsewhere(features[..n], symbol, sorted, key);
      RowsKeyed(features[n], symbol, TimeSort(sorted), |TimeSort(sorted)|);
      assert features[n] in features;
      FilterNone(Rows(features[n], symbol, sorted), RowOf(key));
    }
  }

  lemma {:induction false} RowsKeyed(f: Feature, symbol: string, sorted: seq<Bar>, n: nat)
    requires n <= |sorted|
    ensures forall r :: r in RowsUpTo(f, symbol, sorted, n) ==> r.featureId == f.id && r.entity == symbol
  {
    if n > 0 {
      RowsKeyed(f, symbol, sorted, n - 1);
    }
  }

  lemma TableHolds(features: seq<Feature>, symbol: string, sorted: seq<Bar>, key: Key)
    ensures StreamOf(FoldTable(features, symbol, sorted), key) == FoldStream(features, symbol, sorted, key)
  {
    if key !in FoldTable(features, symbol, sorted) {
      forall f | f in features ensures (f.id, symbol) != key {
        var i :| 0 <= i < |features| && features[i] == f;
        assert IdsOf(features)[i] in IdsOf(features);
      }
      FoldStreamElsewhere(features, symbol, sorted, key);
    }
  }

  lemma {:induction false} SameStreamsSameColumn(t: Table, u: Table, labels: seq<Label>, ids: seq<string>, id: string)
    requires forall l :: l in labels ==>
      PitValue(StreamOf(t, (id, l.entity)), l.time) == PitValue(StreamOf(u, (id, l.entity)), l.time)
    ensures Column(t, labels, ids, id) == Column(u, labels, ids, id)
  {
    if labels != [] {
      hide PitValue;
      SameStreamsSameColumn(t, u, labels[..|labels| - 1], ids, id);
    }
  }

  /** The loops of `_train_fold`, over its own store. */
  method TrainFoldOn(cfg: FoldConfig, split: Split, sorted: seq<Bar>) returns (r: Result<Option<TrainingInput>, LabelError>)
    requires 0 <= split.trainStart && 0 <= split.trainEnd && 0 <= split.testEnd
    ensures r == TrainFold(cfg, split, sorted)
  {
    hide Column, DirectionalOnly, TripleBarrier, FoldStream, FoldTable, MaxLookback, TableOk;
    var store := new InMemoryFeatureStore();
    MaterializeAll(store, cfg.features, cfg.symbol, sorted);
    var train := Slice(sorted, split.trainStart, split.trainEnd);
    var labelled := TripleBarrierLabels(cfg.barriers, train);
    if cfg.directional {
      labelled := DirectionalLabels(cfg.barriers, train);
    }
    if labelled.Failure? {
      return Failure(labelled.error);
    }
    var labels := Trim(labelled.value, if cfg.barriers.horizon >= 0 then cfg.barriers.horizon else 0);
    if labels == [] {
      return Success(None);
    }
    if Slice(sorted, WarmupStart(cfg.features, split), split.testEnd) == [] {
      return Success(None);
    }
    var ids := IdsOf(cfg.features);
    var columns := store.PointInTimeJoin(labels, ids);
    ColumnsMatch(store.table, cfg.features, cfg.symbol, sorted, labels, columns);
    return Success(Some(TrainingInput(labels, columns)));
  }

  method DirectionalLabels(q: Barriers, bars: seq<Bar>) returns (r: Result<seq<Label>, LabelError>)
    ensures r == DirectionalOnly(q, bars)
  {
    hide TripleBarrier;
    var all := TripleBarrierLabels(q, bars);
    match all
    case Failure(e) => return Failure(e);
    case Success(ls) => return Success(Filter(ls, NotFlat()));
  }

  lemma ColumnsMatch(
      table: Table, features: seq<Feature>, symbol: string, sorted: seq<Bar>, labels: seq<Label>,
      columns: map<string, seq<Option<real>>>)
    requires forall key :: StreamOf(table, key) == FoldStream(features, symbol, sorted, key)
    requires columns.Keys == (set id | id in IdsOf(features))
    requires forall id :: id in IdsOf(features) ==> columns[id] == Column(table, labels, IdsOf(features), id)
    ensures columns == Columns(features, symbol, sorted, labels)
  {
    hide Column, PitValue, FoldStream, StreamOf, FoldTable;
    forall id | id in IdsOf(features)
      ensures Column(table, labels, IdsOf(features), id)
           == Column(FoldTable(features, symbol, sorted), labels, IdsOf(features), id)
    {
      forall l | l in labels
        ensures PitValue(StreamOf(table, (id, l.entity)), l.time)
             == PitValue(StreamOf(FoldTable(features, symbol, sorted), (id, l.entity)), l.time)
      {
        TableHolds(features, symbol, sorted, (id, l.entity));
      }
      SameStreamsSameColumn(table, FoldTable(features, symbol, sorted), labels, IdsOf(features), id);
    }
  }

  method MaterializeAll(store: InMemoryFeatureStore, features: seq<Feature>, symbol: string, sorted: seq<Bar>)
    requires store.Valid() && store.table == map[]
    modifies store
    ensures store.Valid()
    ensures forall key :: StreamOf(store.table, key) == FoldStream(features, symbol, sorted, key)
  {
    hide StreamAfter, Rows, TableOk;
    for i := 0 to |features|
      invariant store.Valid()
      invariant forall key :: StreamOf(store.table, key) == FoldStream(features[..i], symbol, sorted, key)
    {
      assert features[..i + 1][..i] == features[..i];
      var rows := MaterializeFeature(features[i], symbol, sorted);
      store.PutMaterialized(rows);
    }
    assert features[..|features|] == features;
  }

  // ------------------------------------------------------------- non-interference

  lemma {:induction false} SamePrefixSameRows(f: Feature, symbol: string, xs: seq<Bar>, ys: seq<Bar>, n: nat)
    requires n <= |xs| && n <= |ys| && xs[..n] == ys[..n]
    ensures RowsUpTo(f, symbol, xs, n) == RowsUpTo(f, symbol, ys, n)
  {
    if n > 0 {
      assert xs[..n][..n - 1] == xs[..n - 1] && ys[..n][..n - 1] == ys[..n - 1];
      assert xs[n - 1] == xs[..n][n - 1] == ys[n - 1];
      SamePrefixSameRows(f, symbol, xs, ys, n - 1);
    }
  }

  /** With a non-negative delay, no row of a later bar is usable at a bar's time. */
  lemma {:induction false} LaterRowsUnusable(f: Feature, symbol: string, bars: seq<Bar>, i: nat, n: nat)
    requires i < n <= |bars| && StrictlyTimeOrdered(bars) && f.delay >= 0
    ensures Filter(RowsUpTo(f, symbol, bars, n), AvailableAt(bars[i].time))
         == Filter(RowsUpTo(f, symbol, bars, i + 1), AvailableAt(bars[i].time))
  {
    hide *;
    if n > i + 1 {
      var t := bars[i].time;
      LaterRowsUnusable(f, symbol, bars, i, n - 1);
      LateRow(f, symbol, bars, i, n - 1);
      RowsNext(f, symbol, bars, n);
      FilterAppend(RowsUpTo(f, symbol, bars, n - 1), RowAt(f, symbol, bars, n - 1), AvailableAt(t));
      var usable := Filter(RowsUpTo(f, symbol, bars, n - 1), AvailableAt(t));
      assert usable + [] == usable;
    }
  }

  lemma LateRow(f: Feature, symbol: string, bars: seq<Bar>, i: nat, k: nat)
    requires i < k < |bars| && StrictlyTimeOrdered(bars) && f.delay >= 0
    ensures Filter(RowAt(f, symbol, bars, k), AvailableAt(bars[i].time)) == []
  {
    assert bars[k].time > bars[i].time;
    FilterNone(RowAt(f, symbol, bars, k), AvailableAt(bars[i].time));
  }

  lemma UsableRowsAgree(f: Feature, symbol: string, xs: seq<Bar>, ys: seq<Bar>, i: nat)
    requires StrictlyTimeOrdered(xs) && StrictlyTimeOrdered(ys) && f.delay >= 0
    requires i < |xs| && i < |ys| && xs[..i + 1] == ys[..i + 1]
    ensures Filter(Rows(f, symbol, xs), AvailableAt(xs[i].time)) == Filter(Rows(f, symbol, ys), AvailableAt(xs[i].time))
  {
    hide RowsUpTo, Filter;
    assert xs[i] == xs[..i + 1][i] == ys[i];
    SortOfSorted(xs, TimeLeq);
    SortOfSorted(ys, TimeLeq);
    LaterRowsUnusable(f, symbol, xs, i, |xs|);
    LaterRowsUnusable(f, symbol, ys, i, |ys|);
    SamePrefixSameRows(f, symbol, xs, ys, i + 1);
  }

  /** The usable part of a stream after a put is the put of the usable parts. */
  lemma UsableAfterPut(stream: seq<Row>, rows: seq<Row>, key: Key, t: int)
    ensures Filter(StreamAfter(stream, rows, key), AvailableAt(t))
         == StreamAfter(Filter(stream, AvailableAt(t)), Filter(rows, AvailableAt(t)), key)
  {
    hide Filter, SortBy;
    var p, q := AvailableAt(t), RowOf(key);
    var both := (r: Row) => p(r) && q(r);
    AvailOrder();
    SortFilter(stream + Filter(rows, q), AvailLeq, p);
    FilterAppend(stream, Filter(rows, q), p);
    FilterFilter(rows, q, p, both);
    FilterFilter(rows, p, q, both);
  }

  lemma {:induction false} UsableStreamsAgree(
      features: seq<Feature>, symbol: string, xs: seq<Bar>, ys: seq<Bar>, i: nat, key: Key)
    requires StrictlyTimeOrdered(xs) && StrictlyTimeOrdered(ys) && forall f :: f in features ==> f.delay >= 0
    requires i < |xs| && i < |ys| && xs[..i + 1] == ys[..i + 1]
    ensures Filter(FoldStream(features, symbol, xs, key), AvailableAt(xs[i].time))
         == Filter(FoldStream(features, symbol, ys, key), AvailableAt(xs[i].time))
  {
    if features != [] {
      hide Filter, StreamAfter, Rows;
      var n := |features| - 1;
      var t := xs[i].time;
      UsableStreamsAgree(features[..n], symbol, xs, ys, i, key);
      assert features[n] in features;
      UsableRowsAgree(features[n], symbol, xs, ys, i);
      UsableAfterPut(FoldStream(features[..n], symbol, xs, key), Rows(features[n], symbol, xs), key, t);
      UsableAfterPut(FoldStream(features[..n], symbol, ys, key), Rows(features[n], symbol, ys), key, t);
    }
  }

  /** Every label of the fold stands at a training bar. */
  lemma LabelsStandAtBars(cfg: FoldConfig, split: Split, sorted: seq<Bar>, l: Label)
    requires 0 <= split.trainStart && 0 <= split.trainEnd
    requires FoldLabels(cfg, split, sorted).Success? && l in FoldLabels(cfg, split, sorted).value
    ensures exists i :: 0 <= i < |sorted| && i < split.trainEnd && sorted[i].time == l.time
  {
    hide OutcomeAt, SortBy, Filter;
    var slice := Slice(sorted, split.trainStart, split.trainEnd);
    var all := LabelsOf(cfg.barriers, TimeSort(slice));
    assert l in all;
    var k :| 0 <= k < |all| && all[k] == l;
    SortByContents(slice, TimeLeq);
    SliceMember(sorted, split.trainStart, split.trainEnd, TimeSort(slice)[k]);
  }

  lemma SliceMember(bars: seq<Bar>, lo: nat, hi: nat, b: Bar)
    requires b in Slice(bars, lo, hi)
    ensures exists i :: 0 <= i < |bars| && i < hi && bars[i].time == b.time
  {
    var slice := Slice(bars, lo, hi);
    var m :| 0 <= m < |slice| && slice[m] == b;
    assert slice[m] == bars[lo + m];
  }

  /** Changing, adding or removing bars at index `train_end` or later leaves a fold's labels and
      its training frame exactly as they were, although features are materialised over the whole
      timeline. */
  lemma TrainingIgnoresLaterBars(cfg: FoldConfig, split: Split, xs: seq<Bar>, ys: seq<Bar>)
    requires StrictlyTimeOrdered(xs) && StrictlyTimeOrdered(ys) && forall f :: f in cfg.features ==> f.delay >= 0
    requires 0 <= split.trainStart && 0 <= split.trainEnd <= |xs| && split.trainEnd <= |ys|
    requires xs[..split.trainEnd] == ys[..split.trainEnd]
    ensures FoldLabels(cfg, split, xs) == FoldLabels(cfg, split, ys)
    ensures FoldLabels(cfg, split, xs).Success? ==>
      var labels := FoldLabels(cfg, split, xs).value;
      Columns(cfg.features, cfg.symbol, xs, labels) == Columns(cfg.features, cfg.symbol, ys, labels)
  {
    SameSlice(split, xs, ys);
    if FoldLabels(cfg, split, xs).Success? {
      hide FoldLabels, Column, FoldTable;
      var labels := FoldLabels(cfg, split, xs).value;
      var ids := IdsOf(cfg.features);
      forall id | id in ids
        ensures Column(FoldTable(cfg.features, cfg.symbol, xs), labels, ids, id)
             == Column(FoldTable(cfg.features, cfg.symbol, ys), labels, ids, id)
      {
        ColumnIgnoresLaterBars(cfg, split, xs, ys, labels, ids, id);
      }
    }
  }

  lemma SameSlice(split: Split, xs: seq<Bar>, ys: seq<Bar>)
    requires 0 <= split.trainStart && 0 <= split.trainEnd <= |xs| && split.trainEnd <= |ys|
    requires xs[..split.trainEnd] == ys[..split.trainEnd]
    ensures Slice(xs, split.trainStart, split.trainEnd) == Slice(ys, split.trainStart, split.trainEnd)
  {
    if split.trainStart <= split.trainEnd {
      assert xs[split.trainStart..split.trainEnd] == xs[..split.trainEnd][split.trainStart..];
      assert ys[split.trainStart..split.trainEnd] == ys[..split.trainEnd][split.trainStart..];
    }
  }

  lemma ColumnIgnoresLaterBars(
      cfg: FoldConfig, split: Split, xs: seq<Bar>, ys: seq<Bar>, labels: seq<Label>, ids: seq<string>, id: string)
    requires StrictlyTimeOrdered(xs) && StrictlyTimeOrdered(ys) && forall f :: f in cfg.features ==> f.delay >= 0
    requires 0 <= split.trainStart && 0 <= split.trainEnd <= |xs| && split.trainEnd <= |ys|
    requires xs[..split.trainEnd] == ys[..split.trainEnd]
    requires FoldLabels(cfg, split, xs) == Success(labels)
    ensures Column(FoldTable(cfg.features, cfg.symbol, xs), labels, ids, id)
         == Column(FoldTable(cfg.features, cfg.symbol, ys), labels, ids, id)
  {
    hide FoldLabels, Column, FoldTable, FoldStream, StreamOf, Filter, StrictlyTimeOrdered;
    forall l | l in labels
      ensures PitValue(StreamOf(FoldTable(cfg.features, cfg.symbol, xs), (id, l.entity)), l.time)
           == PitValue(StreamOf(FoldTable(cfg.features, cfg.symbol, ys), (id, l.entity)), l.time)
    {
      LabelsStandAtBars(cfg, split, xs, l);
      var i :| 0 <= i < |xs| && i < split.trainEnd && xs[i].time == l.time;
      assert xs[..i + 1] == xs[..split.trainEnd][..i + 1] && ys[..i + 1] == ys[..split.trainEnd][..i + 1];
      UsableStreamsAgree(cfg.features, cfg.symbol, xs, ys, i, (id, l.entity));
      TableHolds(cfg.features, cfg.symbol, xs, (id, l.entity));
      TableHolds(cfg.features, cfg.symbol, ys, (id, l.entity));
    }
    SameStreamsSameColumn(FoldTable(cfg.features, cfg.symbol, xs), FoldTable(cfg.features, cfg.symbol, ys), labels, ids, id);
  }

  /** In particular altering any later bars, their number kept, gives the same trained fold. */
  lemma AlteredFutureSameFold(cfg: FoldConfig, split: Split, xs: seq<Bar>, ys: seq<Bar>)
    requires StrictlyTimeOrdered(xs) && StrictlyTimeOrdered(ys) && forall f :: f in cfg.features ==> f.delay >= 0
    requires |xs| == |ys| && 0 <= split.trainStart && 0 <= split.trainEnd <= |xs| && 0 <= split.testEnd
    requires xs[..split.trainEnd] == ys[..split.trainEnd]
    ensures TrainFold(cfg, split, xs) == TrainFold(cfg, split, ys)
  {
    hide FoldLabels, Columns, MaxLookback;
    TrainingIgnoresLaterBars(cfg, split, xs, ys);
  }

  /** A negative availability delay would leak: a one-bar training label then sees the next bar. */
  lemma NegativeDelayLeaks(f: Feature, symbol: string, a: Bar, b: Bar, c: Bar)
    requires f.delay == -(b.time - a.time) && a.time < b.time == c.time
    requires f.compute([a]).None? && f.compute([a, b]) != f.compute([a, c])
    ensures PitValue(FoldStream([f], symbol, [a, b], (f.id, symbol)), a.time)
         != PitValue(FoldStream([f], symbol, [a, c], (f.id, symbol)), a.time)
  {
    TwoBarStream(f, symbol, a, b);
    TwoBarStream(f, symbol, a, c);
  }

  lemma TwoBarStream(f: Feature, symbol: string, a: Bar, b: Bar)
    requires f.delay == -(b.time - a.time) && a.time < b.time && f.compute([a]).None?
    ensures PitValue(FoldStream([f], symbol, [a, b], (f.id, symbol)), a.time) == f.compute([a, b])
  {
    var bars := [a, b];
    SortOfSorted(bars, TimeLeq);
    assert bars[..1] == [a] && bars[..2] == bars;
    assert RowsUpTo(f, symbol, bars, 1) == [];
    var rows := RowsUpTo(f, symbol, bars, 2);
    assert rows == RowAt(f, symbol, bars, 1);
    assert [f][..0] == [] && FoldStream([], symbol, bars, (f.id, symbol)) == [];
    StoredStream(f, symbol, bars);
    FilterAll(rows, AvailableAt(a.time));
  }

  // ------------------------------------------------------------- training and serving in a fold

  /** With distinct ids a feature's stream in the fold's store is that feature's rows alone. */
  lemma {:induction false} FoldStreamIsOwn(features: seq<Feature>, k: nat, symbol: string, sorted: seq<Bar>)
    requires k < |features| && Distinct(IdsOf(features))
    ensures var key := (features[k].id, symbol);
      FoldStream(features, symbol, sorted, key) == StreamAfter([], Rows(features[k], symbol, sorted), key)
  {
    hide Rows, SortBy, Filter, AvailLeq;
    var n := |features| - 1;
    var key := (features[k].id, symbol);
    if k == n {
      forall f | f in features[..n] ensures (f.id, symbol) != key {
        var i :| 0 <= i < n && features[..n][i] == f;
        assert IdsOf(features)[i] != IdsOf(features)[k];
      }
      FoldStreamElsewhere(features[..n], symbol, sorted, key);
    } else {
      assert IdsOf(features)[k] != IdsOf(features)[n];
      assert forall i :: 0 <= i < n ==> IdsOf(features[..n])[i] == IdsOf(features)[i];
      FoldStreamIsOwn(features[..n], k, symbol, sorted);
      ForeignRows(StreamAfter([], Rows(features[k], symbol, sorted), key), features[n], symbol, sorted, key);
      AvailOrder();
      SortBySorted([] + Filter(Rows(features[k], symbol, sorted), RowOf(key)), AvailLeq);
    }
  }

  /** Another feature's rows leave a sorted stream as it is. */
  lemma ForeignRows(stream: seq<Row>, f: Feature, symbol: string, sorted: seq<Bar>, key: Key)
    requires (f.id, symbol) != key
    ensures SortedBy(stream, AvailLeq) ==> StreamAfter(stream, Rows(f, symbol, sorted), key) == stream
  {
    RowsKeyed(f, symbol, TimeSort(sorted), |TimeSort(sorted)|);
    FilterNone(Rows(f, symbol, sorted), RowOf(key));
    assert stream + [] == stream;
    if SortedBy(stream, AvailLeq) {
      SortOfSorted(stream, AvailLeq);
    }
  }

  lemma LabelsAreAtBars(q: Barriers, bars: seq<Bar>, l: Label)
    requires q.horizon >= 1 && l in LabelsOf(q, TimeSort(bars))
    ensures exists b :: b in bars && l.entity == b.symbol && l.time == b.time
  {
    hide OutcomeAt, SortBy;
    var k :| 0 <= k < |TimeSort(bars)| && LabelsOf(q, TimeSort(bars))[k] == l;
    SortByContents(bars, TimeLeq);
    assert TimeSort(bars)[k] in bars;
  }

  /** Every label of a fold stands at one of the bars. */
  lemma FoldLabelAtBar(cfg: FoldConfig, split: Split, sorted: seq<Bar>, l: Label) returns (i: nat)
    requires 0 <= split.trainStart && 0 <= split.trainEnd
    requires FoldLabels(cfg, split, sorted).Success? && l in FoldLabels(cfg, split, sorted).value
    ensures i < |sorted| && l.entity == sorted[i].symbol && l.time == sorted[i].time
  {
    hide LabelsOf, SortBy;
    var slice := Slice(sorted, split.trainStart, split.trainEnd);
    var all := LabelsOf(cfg.barriers, TimeSort(slice));
    assert l in all;
    LabelsAreAtBars(cfg.barriers, slice, l);
    var b :| b in slice && l.entity == b.symbol && l.time == b.time;
    i :| 0 <= i < |sorted| && sorted[i] == b;
  }

  /** The live value at bar `i` is defined, or nothing was defined before it. */
  predicate DefinedOrFirst(f: Feature, symbol: string, interval: Interval, sorted: seq<Bar>, i: nat)
    requires i < |sorted| && f.lookback > 0
  {
    OnlineValue(f, symbol, interval, View(sorted, sorted[i].time + StepOf(interval))).Some?
    || forall j :: 0 <= j < i ==> ValueAt(f, sorted, j).None?
  }

  /** Label `r` of a fold that trains stands at the returned bar, of the fold's symbol. */
  lemma InputLabelAtBar(cfg: FoldConfig, split: Split, sorted: seq<Bar>, interval: Interval, r: nat) returns (i: nat)
    requires 0 <= split.trainStart && 0 <= split.trainEnd && 0 <= split.testEnd
    requires TrainFold(cfg, split, sorted).Success? && TrainFold(cfg, split, sorted).value.Some?
    requires OneStream(sorted, cfg.symbol, interval) && r < |TrainFold(cfg, split, sorted).value.value.labels|
    ensures var l := TrainFold(cfg, split, sorted).value.value.labels[r];
      i < |sorted| && l.time == sorted[i].time && l.entity == sorted[i].symbol == cfg.symbol
  {
    hide FoldLabels, Columns, WarmupStart;
    var input := TrainFold(cfg, split, sorted).value.value;
    assert input.labels[r] in input.labels;
    i := FoldLabelAtBar(cfg, split, sorted, input.labels[r]);
    assert sorted[i] in sorted;
  }

  /** Train/serve consistency of a whole fold: every label it trains on stands at a bar, and in the
      frame a feature's value for it is what the strategy sees live at that bar's close exactly when
      the live value is defined or nothing was defined before it. */
  lemma FoldTrainsWhatItServesIff(
      cfg: FoldConfig, split: Split, sorted: seq<Bar>, interval: Interval, k: nat, r: nat) returns (i: nat)
    requires 0 <= split.trainStart && 0 <= split.trainEnd && 0 <= split.testEnd
    requires TrainFold(cfg, split, sorted).Success? && TrainFold(cfg, split, sorted).value.Some?
    requires OneStream(sorted, cfg.symbol, interval) && Distinct(IdsOf(cfg.features))
    requires k < |cfg.features| && Contract(cfg.features[k]) && cfg.features[k].delay == 0
    requires r < |TrainFold(cfg, split, sorted).value.value.labels|
    ensures i < |sorted| && TrainFold(cfg, split, sorted).value.value.labels[r].time == sorted[i].time
    ensures var f := cfg.features[k];
      var columns := TrainFold(cfg, split, sorted).value.value.columns;
      && f.id in columns && r < |columns[f.id]|
      && (columns[f.id][r] == OnlineValue(f, cfg.symbol, interval, View(sorted, sorted[i].time + StepOf(interval)))
          <==> DefinedOrFirst(f, cfg.symbol, interval, sorted, i))
  {
    hide FoldLabels, Column, FoldStream, FoldTable, Contract, OnlineValue, PitValue, OneStream, ValueAt, WarmupStart, StreamAfter, Rows;
    i := InputLabelAtBar(cfg, split, sorted, interval, r);
    var f := cfg.features[k];
    var ids := IdsOf(cfg.features);
    var labels := TrainFold(cfg, split, sorted).value.value.labels;
    assert ids[k] in ids;
    ColumnIsPit(FoldTable(cfg.features, cfg.symbol, sorted), labels, ids, f.id, r);
    TableHolds(cfg.features, cfg.symbol, sorted, (f.id, cfg.symbol));
    FoldStreamIsOwn(cfg.features, k, cfg.symbol, sorted);
    TrainingMatchesServingIff(f, sorted, cfg.symbol, interval, i);
  }
}
