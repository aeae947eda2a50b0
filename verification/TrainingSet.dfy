/** Which rows a fold trains on, said of the bars of its training slice
    (wfo/model_runner.py `_train_fold`). */
module TrainingSet {
  import opened Collections
  import opened Market
  import opened FeatureStore
  import opened Labels
  import opened Splitter
  import opened PaperState
  import opened FoldReplay
  import opened Folds

  predicate BarriersOk(q: Barriers) {
    q.horizon >= 1 && q.upPct > 0.0 && q.downPct > 0.0
  }

  /** A bar the fold's replay would start from or go on to: before the end of the test window, and
      no further before its start than some feature looks back. */
  ghost predicate Replayed(cfg: FoldConfig, split: Split, sorted: seq<Bar>, k: int) {
    && 0 <= k < |sorted| && k < split.testEnd
    && exists f :: f in cfg.features && split.testStart - f.lookback <= k
  }

  /** How many bars the training window holds. */
  function WindowLength(sorted: seq<Bar>, split: Split): int {
    var hi := if split.trainEnd < |sorted| then split.trainEnd else |sorted|;
    if hi > split.trainStart then hi - split.trainStart else 0
  }

  /** Exactly the bars of the training window, in order. */
  ghost predicate IsSlice(slice: seq<Bar>, sorted: seq<Bar>, split: Split)
    requires 0 <= split.trainStart
  {
    && |slice| == WindowLength(sorted, split)
    && forall i :: 0 <= i < |slice| ==> slice[i] == sorted[split.trainStart + i]
  }

  lemma SliceIsSlice(sorted: seq<Bar>, split: Split)
    requires 0 <= split.trainStart && 0 <= split.trainEnd
    ensures IsSlice(Slice(sorted, split.trainStart, split.trainEnd), sorted, split)
    ensures StrictlyTimeOrdered(sorted) ==> StrictlyTimeOrdered(Slice(sorted, split.trainStart, split.trainEnd))
  {
  }

  lemma WarmupIsReplayed(cfg: FoldConfig, split: Split, sorted: seq<Bar>)
    requires cfg.features != [] && 0 <= split.testEnd
    ensures Slice(sorted, WarmupStart(cfg.features, split), split.testEnd) == []
      <==> forall k :: !Replayed(cfg, split, sorted, k)
  {
    hide MaxLookback;
    var w := WarmupStart(cfg.features, split);
    var n := LookbackAttained(cfg.features);
    assert cfg.features[n] in cfg.features;
    if Slice(sorted, w, split.testEnd) != [] {
      assert Replayed(cfg, split, sorted, w);
    } else if k :| Replayed(cfg, split, sorted, k) {
      var f :| f in cfg.features && split.testStart - f.lookback <= k;
      var i :| 0 <= i < |cfg.features| && cfg.features[i] == f;
      LookbackAtMost(cfg.features, i);
    }
  }

  lemma SliceLabels(cfg: FoldConfig, split: Split, sorted: seq<Bar>)
    requires 0 <= split.trainStart && 0 <= split.trainEnd && StrictlyTimeOrdered(sorted)
    ensures var slice := Slice(sorted, split.trainStart, split.trainEnd); TimeSort(slice) == slice
  {
    SliceIsSlice(sorted, split);
    SortOfSorted(Slice(sorted, split.trainStart, split.trainEnd), TimeLeq);
  }

  /** Training fails on barriers out of range alone, whatever the mode and the bars. */
  lemma TrainFoldFailsIff(cfg: FoldConfig, split: Split, sorted: seq<Bar>)
    requires 0 <= split.trainStart && 0 <= split.trainEnd && 0 <= split.testEnd
    ensures TrainFold(cfg, split, sorted).Success? <==> BarriersOk(cfg.barriers)
    ensures cfg.barriers.horizon < 1 ==> TrainFold(cfg, split, sorted) == Failure(BadHorizon)
    ensures cfg.barriers.horizon >= 1 && !BarriersOk(cfg.barriers) ==> TrainFold(cfg, split, sorted) == Failure(BadBarriers)
  {
    hide LabelsOf, Columns, Filter;
  }

  /** Three-class training: the fold is skipped exactly when the slice is no longer than the horizon
      or there is no bar to replay; otherwise every bar of the slice but the last `horizon` is a
      row, in order, with its outcome over that slice. */
  lemma ThreeClassRows(cfg: FoldConfig, split: Split, sorted: seq<Bar>, slice: seq<Bar>)
    requires 0 <= split.trainStart && 0 <= split.trainEnd && 0 <= split.testEnd && cfg.features != []
    requires !cfg.directional && BarriersOk(cfg.barriers) && StrictlyTimeOrdered(sorted)
    requires IsSlice(slice, sorted, split)
    ensures var r := TrainFold(cfg, split, sorted);
      && r.Success?
      && (r.value.None? <==> |slice| <= cfg.barriers.horizon || forall k :: !Replayed(cfg, split, sorted, k))
      && (r.value.Some? ==>
            var labels := r.value.value.labels;
            && |labels| == |slice| - cfg.barriers.horizon
            && forall i :: 0 <= i < |labels| ==>
                 labels[i] == Label(slice[i].symbol, slice[i].time, OutcomeAt(cfg.barriers, slice, i)))
  {
    hide Columns, OutcomeAt, MaxLookback, WarmupStart, SortBy, Replayed;
    SliceIsSlice(sorted, split);
    OneSlice(slice, sorted, split);
    SliceLabels(cfg, split, sorted);
    WarmupIsReplayed(cfg, split, sorted);
  }

  lemma OneSlice(slice: seq<Bar>, sorted: seq<Bar>, split: Split)
    requires 0 <= split.trainStart && 0 <= split.trainEnd && IsSlice(slice, sorted, split)
    ensures slice == Slice(sorted, split.trainStart, split.trainEnd)
  {
    SliceIsSlice(sorted, split);
  }

  /** The bars whose outcome is up or down, first to last. */
  predicate Movers(q: Barriers, slice: seq<Bar>, at: seq<nat>)
    requires q.horizon >= 1
  {
    && (forall j :: 0 <= j < |at| ==> at[j] < |slice| && OutcomeAt(q, slice, at[j]) != 0)
    && (forall j, k :: 0 <= j < k < |at| ==> at[j] < at[k])
    && (forall i: nat :: i < |slice| && OutcomeAt(q, slice, i) != 0 ==> i in at)
  }

  /** Dropping the flat rows leaves the labels of the movers. */
  lemma {:induction false} FilterIsMovers(q: Barriers, slice: seq<Bar>, n: nat) returns (at: seq<nat>)
    requires q.horizon >= 1 && n <= |slice|
    ensures forall j :: 0 <= j < |at| ==> at[j] < n && OutcomeAt(q, slice, at[j]) != 0
    ensures forall j, k :: 0 <= j < k < |at| ==> at[j] < at[k]
    ensures forall i: nat :: i < n && OutcomeAt(q, slice, i) != 0 ==> i in at
    ensures var kept := Filter(LabelsOf(q, slice)[..n], NotFlat());
      |kept| == |at| && forall j :: 0 <= j < |at| ==> kept[j] == LabelAt(q, slice, at[j])
  {
    hide OutcomeAt;
    hide LabelsOf, Filter;
    at := [];
    assert LabelsOf(q, slice)[..0] == [];
    NothingKept();
    if n > 0 {
      at := FilterIsMovers(q, slice, n - 1);
      FilterNext(LabelsOf(q, slice), n - 1, NotFlat());
      if OutcomeAt(q, slice, n - 1) != 0 {
        at := at + [n - 1];
      }
    }
  }

  lemma NothingKept()
    ensures Filter<Label>([], NotFlat()) == []
  {
  }

  /** Directional training: the rows are the movers of the slice, in order, less the last `horizon`
      of them; the fold is skipped exactly when none is left or there is no bar to replay. No row
      is flat. */
  lemma DirectionalRows(cfg: FoldConfig, split: Split, sorted: seq<Bar>, slice: seq<Bar>) returns (at: seq<nat>)
    requires 0 <= split.trainStart && 0 <= split.trainEnd && 0 <= split.testEnd && cfg.features != []
    requires cfg.directional && BarriersOk(cfg.barriers) && StrictlyTimeOrdered(sorted)
    requires IsSlice(slice, sorted, split)
    ensures Movers(cfg.barriers, slice, at)
    ensures var r := TrainFold(cfg, split, sorted);
      && r.Success?
      && (r.value.None? <==> |at| <= cfg.barriers.horizon || forall k :: !Replayed(cfg, split, sorted, k))
      && (r.value.Some? ==>
            var labels := r.value.value.labels;
            && |labels| == |at| - cfg.barriers.horizon
            && forall j :: 0 <= j < |labels| ==>
                 && labels[j] == Label(slice[at[j]].symbol, slice[at[j]].time, OutcomeAt(cfg.barriers, slice, at[j]))
                 && labels[j].outcome != 0)
  {
    hide Columns, OutcomeAt, MaxLookback, WarmupStart, SortBy, Replayed, Filter;
    SliceIsSlice(sorted, split);
    OneSlice(slice, sorted, split);
    SliceLabels(cfg, split, sorted);
    WarmupIsReplayed(cfg, split, sorted);
    at := FilterIsMovers(cfg.barriers, slice, |slice|);
    assert LabelsOf(cfg.barriers, slice)[..|slice|] == LabelsOf(cfg.barriers, slice);
  }
}
