/** The training frame and the live feature vector agree (features/store.py, mre/source.py,
    strategies/model_driven.py). */
module TrainServe {
  import opened Collections
  import opened Market
  import opened Source
  import opened Strategies
  import opened FeatureStore

  // ------------------------------------------------------------- what the join returns

  lemma {:induction false} CountOfNone(ids: seq<string>, id: string)
    ensures CountOf(ids, id) == 0 <==> id !in ids
  {
    if ids != [] {
      CountOfNone(ids[..|ids| - 1], id);
      assert ids == ids[..|ids| - 1] + [ids[|ids| - 1]];
    }
  }

  lemma {:induction false} CountOfDistinct(ids: seq<string>, id: string)
    requires Distinct(ids) && id in ids
    ensures CountOf(ids, id) == 1
  {
    var n := |ids| - 1;
    assert ids == ids[..n] + [ids[n]];
    if ids[n] == id {
      CountOfNone(ids[..n], id);
    } else {
      CountOfDistinct(ids[..n], id);
    }
  }

  lemma Times(n: nat, c: nat)
    ensures n * c + c == (n + 1) * c
    ensures n > 0 ==> (n * c == n <==> c == 1)
  {
    if n > 0 && n * c == n {
      assert n * (c - 1) == 0;
    }
  }

  lemma {:induction false} ColumnLength(table: Table, labels: seq<Label>, ids: seq<string>, id: string)
    ensures |Column(table, labels, ids, id)| == |labels| * CountOf(ids, id)
  {
    hide CountOf;
    if labels != [] {
      var n := |labels| - 1;
      ColumnLength(table, labels[..n], ids, id);
      Times(n, CountOf(ids, id));
    }
  }

  /** A column is as long as the frame exactly when its feature is asked for once: asking twice
      for one id lengthens its column past the labels. */
  lemma ColumnFitsIff(table: Table, labels: seq<Label>, ids: seq<string>, id: string)
    requires labels != []
    ensures |Column(table, labels, ids, id)| == |labels| <==> CountOf(ids, id) == 1
  {
    ColumnLength(table, labels, ids, id);
    Times(|labels|, CountOf(ids, id));
  }

  /** With distinct feature ids, row `i` of a column is label `i`'s point-in-time value. */
  lemma {:induction false} ColumnIsPit(table: Table, labels: seq<Label>, ids: seq<string>, id: string, i: nat)
    requires Distinct(ids) && id in ids && i < |labels|
    ensures |Column(table, labels, ids, id)| == |labels|
    ensures Column(table, labels, ids, id)[i] == PitValue(StreamOf(table, (id, labels[i].entity)), labels[i].time)
  {
    hide PitValue;
    CountOfDistinct(ids, id);
    ColumnLength(table, labels, ids, id);
    var n := |labels| - 1;
    ColumnLength(table, labels[..n], ids, id);
    if i < n {
      ColumnIsPit(table, labels[..n], ids, id, i);
    }
  }

  // ------------------------------------------------------------- one feature over one stream

  /** A single stream of candles of one symbol and interval, strictly ordered in time. */
  ghost predicate OneStream(bars: seq<Bar>, symbol: string, interval: Interval) {
    StrictlyTimeOrdered(bars) && forall b :: b in bars ==> b.symbol == symbol && b.interval == interval
  }

  /** The feature's value at bar `i`. */
  function ValueAt(f: Feature, bars: seq<Bar>, i: nat): Option<real>
    requires i < |bars|
  {
    f.compute(bars[..i + 1])
  }

  /** The newest defined value at or before bar `i`. */
  function NewestValue(f: Feature, bars: seq<Bar>, i: nat): Option<real>
    requires i < |bars|
  {
    if ValueAt(f, bars, i).Some? || i == 0 then ValueAt(f, bars, i) else NewestValue(f, bars, i - 1)
  }

  lemma {:induction false} RowTimes(f: Feature, entity: string, bars: seq<Bar>, n: nat)
    requires n <= |bars| && StrictlyTimeOrdered(bars)
    ensures forall r :: r in RowsUpTo(f, entity, bars, n) ==> r.available == r.time + f.delay
    ensures n < |bars| ==> forall r :: r in RowsUpTo(f, entity, bars, n) ==> r.time < bars[n].time
    ensures forall r :: r in RowsUpTo(f, entity, bars, n) ==> r.featureId == f.id && r.entity == entity
    ensures SortedBy(RowsUpTo(f, entity, bars, n), AvailLeq)
  {
    if n > 0 {
      RowTimes(f, entity, bars, n - 1);
      assert n < |bars| ==> bars[n - 1].time < bars[n].time;
    }
  }

  /** The first `m` of `n` bars are those whose values are available at `t`. */
  ghost predicate AvailableUpTo(f: Feature, bars: seq<Bar>, t: int, m: nat, n: nat)
    requires m <= n <= |bars|
  {
    && (forall j :: 0 <= j < m ==> bars[j].time + f.delay <= t)
    && (forall j :: m <= j < n ==> bars[j].time + f.delay > t)
  }

  lemma RowsNext(f: Feature, symbol: string, bars: seq<Bar>, n: nat)
    requires 0 < n <= |bars|
    ensures RowsUpTo(f, symbol, bars, n) == RowsUpTo(f, symbol, bars, n - 1) + RowAt(f, symbol, bars, n - 1)
  {
  }

  lemma NoRowsYet(f: Feature, symbol: string, bars: seq<Bar>, t: int)
    ensures Filter(RowsUpTo(f, symbol, bars, 0), AvailableAt(t)) == RowsUpTo(f, symbol, bars, 0)
  {
  }

  lemma RowAvailable(f: Feature, symbol: string, bars: seq<Bar>, k: nat, t: int)
    requires k < |bars|
    ensures Filter(RowAt(f, symbol, bars, k), AvailableAt(t)) == if bars[k].time + f.delay <= t then RowAt(f, symbol, bars, k) else []
  {
    var row := RowAt(f, symbol, bars, k);
    if bars[k].time + f.delay <= t {
      FilterAll(row, AvailableAt(t));
    } else {
      FilterNone(row, AvailableAt(t));
    }
  }

  /** Rows usable at a time are those of the bars available by then. */
  lemma {:induction false} UsableRows(f: Feature, entity: string, bars: seq<Bar>, t: int, m: nat, n: nat)
    requires m <= n <= |bars| && AvailableUpTo(f, bars, t, m, n)
    ensures Filter(RowsUpTo(f, entity, bars, n), AvailableAt(t)) == RowsUpTo(f, entity, bars, m)
  {
    hide *;
    if n == 0 {
      NoRowsYet(f, entity, bars, t);
    } else {
      var front, last := RowsUpTo(f, entity, bars, n - 1), RowAt(f, entity, bars, n - 1);
      RowsNext(f, entity, bars, n);
      RowAvailable(f, entity, bars, n - 1, t);
      FilterAppend(front, last, AvailableAt(t));
      OneBarLess(f, bars, t, m, n);
      if m == n {
        UsableRows(f, entity, bars, t, m - 1, n - 1);
      } else {
        UsableRows(f, entity, bars, t, m, n - 1);
        assert RowsUpTo(f, entity, bars, m) + [] == RowsUpTo(f, entity, bars, m);
      }
    }
  }

  lemma OneBarLess(f: Feature, bars: seq<Bar>, t: int, m: nat, n: nat)
    requires m <= n <= |bars| && n > 0 && AvailableUpTo(f, bars, t, m, n)
    ensures AvailableUpTo(f, bars, t, if m == n then m - 1 else m, n - 1)
    ensures bars[n - 1].time + f.delay <= t <==> m == n
  {
  }

  function LastValue(rows: seq<Row>): Option<real> {
    if rows == [] then None else Some(rows[|rows| - 1].value)
  }

  lemma {:induction false} LastRowIsNewest(f: Feature, entity: string, bars: seq<Bar>, i: nat)
    requires i < |bars|
    ensures LastValue(RowsUpTo(f, entity, bars, i + 1)) == NewestValue(f, bars, i)
  {
    if i > 0 {
      LastRowIsNewest(f, entity, bars, i - 1);
    } else {
      assert RowsUpTo(f, entity, bars, 0) == [];
    }
  }

  /** What the store holds for one feature of one symbol. */
  lemma StoredStream(f: Feature, entity: string, bars: seq<Bar>)
    requires StrictlyTimeOrdered(bars)
    ensures StreamAfter([], Rows(f, entity, bars), (f.id, entity)) == RowsUpTo(f, entity, bars, |bars|)
  {
    SortOfSorted(bars, TimeLeq);
    var rows := RowsUpTo(f, entity, bars, |bars|);
    RowTimes(f, entity, bars, |bars|);
    FilterAll(rows, RowOf((f.id, entity)));
    assert [] + rows == rows;
    SortOfSorted(rows, AvailLeq);
  }

  lemma NoBarNoRow(f: Feature, entity: string, bars: seq<Bar>)
    ensures RowsUpTo(f, entity, bars, 0) == []
  {
  }

  /** The join's value at a time is the newest value defined on the bars available by then: those
      whose time plus the feature's delay has come. */
  lemma PitWithDelay(f: Feature, entity: string, bars: seq<Bar>, t: int, m: nat)
    requires StrictlyTimeOrdered(bars) && m <= |bars| && AvailableUpTo(f, bars, t, m, |bars|)
    ensures PitValue(StreamAfter([], Rows(f, entity, bars), (f.id, entity)), t)
         == if m == 0 then None else NewestValue(f, bars, m - 1)
  {
    hide StreamAfter, Rows, RowsUpTo, Filter, NewestValue;
    StoredStream(f, entity, bars);
    UsableRows(f, entity, bars, t, m, |bars|);
    if m > 0 {
      LastRowIsNewest(f, entity, bars, m - 1);
    } else {
      NoBarNoRow(f, entity, bars);
    }
  }

  /** Without a delay, for a label at bar `i`: the newest value defined up to that bar. */
  lemma PitIsNewest(f: Feature, entity: string, bars: seq<Bar>, i: nat)
    requires StrictlyTimeOrdered(bars) && i < |bars| && f.delay == 0
    ensures PitValue(StreamAfter([], Rows(f, entity, bars), (f.id, entity)), bars[i].time) == NewestValue(f, bars, i)
  {
    hide StreamAfter, Rows, PitValue, NewestValue;
    PitWithDelay(f, entity, bars, bars[i].time, i + 1);
  }

  // ------------------------------------------------------------- the live value

  lemma {:induction false} ClosedPrefix(bars: seq<Bar>, step: int, i: nat)
    requires StrictlyTimeOrdered(bars) && i < |bars|
    ensures Filter(bars, ClosedBy(step, bars[i].time + step)) == bars[..i + 1]
  {
    hide Filter;
    var c := ClosedBy(step, bars[i].time + step);
    assert bars == bars[..i + 1] + bars[i + 1..];
    FilterAppend(bars[..i + 1], bars[i + 1..], c);
    FilterAll(bars[..i + 1], c);
    FilterNone(bars[i + 1..], c);
  }

  /** At a bar's close, a history query over the stream returns its newest bars. */
  lemma HistoryAtClose(bars: seq<Bar>, symbol: string, interval: Interval, i: nat, lookback: nat)
    requires OneStream(bars, symbol, interval) && i < |bars| && lookback > 0
    ensures History(View(bars, bars[i].time + StepOf(interval)), symbol, interval, lookback) == LastN(bars[..i + 1], lookback)
  {
    FilterAll(bars, HasKey(symbol, interval));
    ClosedPrefix(bars, StepOf(interval), i);
  }

  /** What a live strategy computes at the bar's close is the offline value at that bar. */
  lemma LiveIsOffline(f: Feature, bars: seq<Bar>, symbol: string, interval: Interval, i: nat)
    requires OneStream(bars, symbol, interval) && i < |bars| && Contract(f)
    ensures OnlineValue(f, symbol, interval, View(bars, bars[i].time + StepOf(interval))) == ValueAt(f, bars, i)
  {
    HistoryAtClose(bars, symbol, interval, i, f.lookback);
    var upTo := bars[..i + 1];
    if |upTo| < f.lookback {
      assert LastN(upTo, f.lookback) == upTo;
    }
  }

  /** Train/serve consistency: over one stream with no delay, the training value of a label at bar
      `i` equals what the strategy sees live at that bar's close exactly when the live value is
      defined or nothing was defined before it. */
  lemma TrainingMatchesServingIff(f: Feature, bars: seq<Bar>, symbol: string, interval: Interval, i: nat)
    requires OneStream(bars, symbol, interval) && i < |bars| && Contract(f) && f.delay == 0
    ensures var live := OnlineValue(f, symbol, interval, View(bars, bars[i].time + StepOf(interval)));
      var trained := PitValue(StreamAfter([], Rows(f, symbol, bars), (f.id, symbol)), bars[i].time);
      trained == live <==> live.Some? || forall j :: 0 <= j < i ==> ValueAt(f, bars, j).None?
  {
    hide StreamAfter, Rows, PitValue, OnlineValue, History, Contract, OneStream;
    StreamIsOrdered(bars, symbol, interval);
    LiveIsOffline(f, bars, symbol, interval, i);
    PitIsNewest(f, symbol, bars, i);
    NewestOrEarlier(f, bars, i);
  }

  lemma StreamIsOrdered(bars: seq<Bar>, symbol: string, interval: Interval)
    requires OneStream(bars, symbol, interval)
    ensures StrictlyTimeOrdered(bars)
  {
  }

  lemma {:induction false} NewestOrEarlier(f: Feature, bars: seq<Bar>, i: nat)
    requires i < |bars|
    ensures NewestValue(f, bars, i).None? <==> forall j :: 0 <= j <= i ==> ValueAt(f, bars, j).None?
  {
    hide ValueAt;
    if i > 0 {
      NewestOrEarlier(f, bars, i - 1);
    }
  }
}
