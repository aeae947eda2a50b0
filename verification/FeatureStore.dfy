/** Materialised features and the point-in-time join (features/store.py). */
module FeatureStore {
  import opened Collections
  import opened Market
  import opened Strategies

  /** One materialised value: the bar's event time and the moment it became usable. */
  datatype Row = Row(featureId: string, entity: string, time: int, available: int, value: real)

  datatype Label = Label(entity: string, time: int, outcome: int)

  type Key = (string, string)

  predicate AvailLeq(a: Row, b: Row) {
    a.available <= b.available
  }

  function AvailableAt(t: int): Row -> bool {
    (r: Row) => r.available <= t
  }

  function RowOf(key: Key): Row -> bool {
    (r: Row) => (r.featureId, r.entity) == key
  }

  lemma AvailOrder()
    ensures TotalPreorder(AvailLeq)
  {
  }

  // ------------------------------------------------------------- materialisation

  function RowAt(f: Feature, entity: string, sorted: seq<Bar>, i: nat): seq<Row>
    requires i < |sorted|
  {
    match f.compute(sorted[..i + 1])
    case None => []
    case Some(x) => [Row(f.id, entity, sorted[i].time, sorted[i].time + f.delay, x)]
  }

  /** Rows of the first `n` bars; a bar without a value has no row. */
  function RowsUpTo(f: Feature, entity: string, sorted: seq<Bar>, n: nat): seq<Row>
    requires n <= |sorted|
  {
    if n == 0 then [] else RowsUpTo(f, entity, sorted, n - 1) + RowAt(f, entity, sorted, n - 1)
  }

  function Rows(f: Feature, entity: string, bars: seq<Bar>): seq<Row> {
    var sorted := TimeSort(bars);
    RowsUpTo(f, entity, sorted, |sorted|)
  }

  method MaterializeFeature(f: Feature, entity: string, bars: seq<Bar>) returns (rows: seq<Row>)
    ensures rows == Rows(f, entity, bars)
  {
    var sorted: seq<Bar> := TimeSort(bars);
    rows := [];
    for i := 0 to |sorted|
      invariant rows == RowsUpTo(f, entity, sorted, i)
    {
      var value := f.compute(sorted[..i + 1]);
      if value.Some? {
        rows := rows + [Row(f.id, entity, sorted[i].time, sorted[i].time + f.delay, value.value)];
      }
    }
  }

  // ------------------------------------------------------------- the store

  type Table = map<Key, seq<Row>>

  function StreamOf(table: Table, key: Key): seq<Row> {
    if key in table then table[key] else []
  }

  /** Every stream is sorted by availability. */
  ghost predicate TableOk(table: Table) {
    forall key :: SortedBy(StreamOf(table, key), AvailLeq)
  }

  /** A stream after a put: the new rows join it, and it is sorted again. */
  function StreamAfter(stream: seq<Row>, rows: seq<Row>, key: Key): seq<Row> {
    SortBy(stream + Filter(rows, RowOf(key)), AvailLeq)
  }

  /** The newest value whose availability is at most `t`. */
  function PitValue(stream: seq<Row>, t: int): Option<real> {
    var usable := Filter(stream, AvailableAt(t));
    if usable == [] then None else Some(usable[|usable| - 1].value)
  }

  lemma {:induction false} UsableIsPrefix(stream: seq<Row>, t: int, n: nat)
    requires n <= |stream|
    requires forall i :: 0 <= i < n ==> stream[i].available <= t
    requires forall i :: n <= i < |stream| ==> stream[i].available > t
    ensures Filter(stream, AvailableAt(t)) == stream[..n]
  {
    assert stream == stream[..n] + stream[n..];
    FilterAppend(stream[..n], stream[n..], AvailableAt(t));
    FilterAll(stream[..n], AvailableAt(t));
    FilterNone(stream[n..], AvailableAt(t));
  }

  /** bisect_right on the availability keys. */
  method BisectRight(stream: seq<Row>, t: int) returns (n: nat)
    requires SortedBy(stream, AvailLeq)
    ensures n <= |stream|
    ensures forall i :: 0 <= i < n ==> stream[i].available <= t
    ensures forall i :: n <= i < |stream| ==> stream[i].available > t
  {
    n := 0;
    var hi := |stream|;
    while n < hi
      invariant n <= hi <= |stream|
      invariant forall i :: 0 <= i < n ==> stream[i].available <= t
      invariant forall i :: hi <= i < |stream| ==> stream[i].available > t
    {
      var mid := (n + hi) / 2;
      if t < stream[mid].available {
        assert forall i :: mid <= i < |stream| ==> i == mid || AvailLeq(stream[mid], stream[i]);
        hi := mid;
      } else {
        assert forall i :: 0 <= i <= mid ==> i == mid || AvailLeq(stream[i], stream[mid]);
        n := mid + 1;
      }
    }
  }

  // ------------------------------------------------------------- the join

  function Repeat<T>(x: T, n: nat): (xs: seq<T>)
    ensures |xs| == n && forall i :: 0 <= i < n ==> xs[i] == x
  {
    seq(n, i => x)
  }

  function CountOf(ids: seq<string>, id: string): nat {
    if ids == [] then 0
    else CountOf(ids[..|ids| - 1], id) + (if ids[|ids| - 1] == id then 1 else 0)
  }

  /** A frame column: one entry per label for each mention of the feature id. */
  function Column(table: Table, labels: seq<Label>, ids: seq<string>, id: string): seq<Option<real>> {
    if labels == [] then []
    else
      var last := labels[|labels| - 1];
      Column(table, labels[..|labels| - 1], ids, id)
      + Repeat(PitValue(StreamOf(table, (id, last.entity)), last.time), CountOf(ids, id))
  }

  function PartialColumn(table: Table, labels: seq<Label>, i: nat, ids: seq<string>, k: nat, id: string): seq<Option<real>>
    requires i < |labels| && k <= |ids|
  {
    Column(table, labels[..i], ids, id)
    + Repeat(PitValue(StreamOf(table, (id, labels[i].entity)), labels[i].time), CountOf(ids[..k], id))
  }

  /** The values one label adds, after the first `k` feature ids have been joined. */
  ghost predicate Joined(columns: map<string, seq<Option<real>>>, table: Table, labels: seq<Label>, i: nat, ids: seq<string>, k: nat)
    requires i < |labels| && k <= |ids|
  {
    && (forall id :: id in columns <==> id in ids)
    && forall id :: id in columns ==> columns[id] == PartialColumn(table, labels, i, ids, k, id)
  }

  lemma JoinOne(
      columns: map<string, seq<Option<real>>>, table: Table, labels: seq<Label>, i: nat, ids: seq<string>, k: nat)
    requires i < |labels| && k < |ids| && Joined(columns, table, labels, i, ids, k)
    ensures ids[k] in columns
    ensures var x := PitValue(StreamOf(table, (ids[k], labels[i].entity)), labels[i].time);
      Joined(columns[ids[k] := columns[ids[k]] + [x]], table, labels, i, ids, k + 1)
  {
    hide PitValue, Column, StreamOf;
    assert ids[..k + 1][..k] == ids[..k];
    var id := ids[k];
    var x := PitValue(StreamOf(table, (id, labels[i].entity)), labels[i].time);
    assert Repeat(x, CountOf(ids[..k], id)) + [x] == Repeat(x, CountOf(ids[..k + 1], id));
    AppendAssociates(Column(table, labels[..i], ids, id), Repeat(x, CountOf(ids[..k], id)), [x]);
  }

  ghost predicate Appended(table: Table, before: Table, rows: seq<Row>) {
    forall key :: StreamOf(table, key) == StreamOf(before, key) + Filter(rows, RowOf(key))
  }

  lemma NothingAppended(table: Table)
    ensures Appended(table, table, [])
  {
  }

  lemma AppendedNext(table: Table, before: Table, rows: seq<Row>, r: Row)
    requires Appended(table, before, rows)
    ensures var key := (r.featureId, r.entity);
      Appended(table[key := StreamOf(table, key) + [r]], before, rows + [r])
  {
    var touched := (r.featureId, r.entity);
    var table' := table[touched := StreamOf(table, touched) + [r]];
    forall key ensures StreamOf(table', key) == StreamOf(before, key) + Filter(rows + [r], RowOf(key)) {
      FilterAppend(rows, [r], RowOf(key));
      assert StreamOf(table, key) == StreamOf(before, key) + Filter(rows, RowOf(key));
      assert Filter([r], RowOf(key)) == if key == touched then [r] else [];
      assert Filter(rows, RowOf(key)) + [] == Filter(rows, RowOf(key));
      AppendAssociates(StreamOf(before, key), Filter(rows, RowOf(key)), [r]);
    }
  }

  ghost predicate SortedStreams(table: Table, before: Table, keys: set<Key>) {
    forall key :: StreamOf(table, key)
      == (if key in keys then SortBy(StreamOf(before, key), AvailLeq) else StreamOf(before, key))
  }

  lemma PutDone(before: Table, appended: Table, table: Table, rows: seq<Row>)
    requires TableOk(before) && Appended(appended, before, rows)
    requires SortedStreams(table, appended, set r | r in rows :: (r.featureId, r.entity))
    ensures TableOk(table) && forall key :: StreamOf(table, key) == StreamAfter(StreamOf(before, key), rows, key)
  {
    forall key ensures StreamOf(table, key) == StreamAfter(StreamOf(before, key), rows, key) {
      PutOne(before, appended, table, rows, key);
    }
    AvailOrder();
    forall key ensures SortedBy(StreamOf(table, key), AvailLeq) {
      SortBySorted(StreamOf(before, key) + Filter(rows, RowOf(key)), AvailLeq);
    }
  }

  lemma PutOne(before: Table, appended: Table, table: Table, rows: seq<Row>, key: Key)
    requires TableOk(before) && Appended(appended, before, rows)
    requires SortedStreams(table, appended, set r | r in rows :: (r.featureId, r.entity))
    ensures StreamOf(table, key) == StreamAfter(StreamOf(before, key), rows, key)
  {
    hide StreamOf, SortBy, Filter;
    assert StreamOf(appended, key) == StreamOf(before, key) + Filter(rows, RowOf(key));
    if key !in (set r | r in rows :: (r.featureId, r.entity)) {
      FilterNone(rows, RowOf(key));
      assert StreamOf(before, key) + [] == StreamOf(before, key);
      SortOfSorted(StreamOf(before, key), AvailLeq);
    }
  }

  class InMemoryFeatureStore {
    var table: Table

    ghost predicate Valid()
      reads this
    {
      TableOk(table)
    }

    constructor ()
      ensures Valid() && table == map[]
    {
      table := map[];
    }

    /** Appends every row to its stream, then sorts the streams that were touched. */
    method PutMaterialized(rows: seq<Row>)
      requires Valid()
      modifies this
      ensures Valid()
      ensures forall key :: StreamOf(table, key) == StreamAfter(StreamOf(old(table), key), rows, key)
    {
      hide StreamOf, StreamAfter, Filter, TableOk, Appended, SortedStreams, SortBy;
      AppendRows(rows);
      ghost var appended := table;
      SortStreams(set r | r in rows :: (r.featureId, r.entity));
      PutDone(old(table), appended, table, rows);
    }

    method AppendRows(rows: seq<Row>)
      modifies this
      ensures Appended(table, old(table), rows)
    {
      hide Appended;
      NothingAppended(table);
      for i := 0 to |rows|
        invariant Appended(table, old(table), rows[..i])
      {
        var key := (rows[i].featureId, rows[i].entity);
        AppendedNext(table, old(table), rows[..i], rows[i]);
        assert rows[..i + 1] == rows[..i] + [rows[i]];
        table := table[key := StreamOf(table, key) + [rows[i]]];
      }
      assert rows[..|rows|] == rows;
    }

    method SortStreams(keys: set<Key>)
      modifies this
      ensures SortedStreams(table, old(table), keys)
    {
      var left := keys;
      while left != {}
        invariant left <= keys
        invariant SortedStreams(table, old(table), keys - left)
      {
        var key :| key in left;
        left := left - {key};
        table := table[key := SortBy(StreamOf(table, key), AvailLeq)];
      }
      assert keys - {} == keys;
    }

    method LookUp(key: Key, t: int) returns (v: Option<real>)
      requires Valid()
      ensures v == PitValue(StreamOf(table, key), t)
    {
      var stream := StreamOf(table, key);
      if stream == [] {
        return None;
      }
      var n := BisectRight(stream, t);
      UsableIsPrefix(stream, t, n);
      return if n == 0 then None else Some(stream[n - 1].value);
    }

    method PointInTimeJoin(labels: seq<Label>, ids: seq<string>) returns (columns: map<string, seq<Option<real>>>)
      requires Valid()
      ensures columns.Keys == (set id | id in ids)
      ensures forall id :: id in ids ==> columns[id] == Column(table, labels, ids, id)
    {
      hide PitValue, TableOk;
      columns := map id | id in ids :: [];
      for i := 0 to |labels|
        invariant columns.Keys == (set id | id in ids)
        invariant forall id :: id in ids ==> columns[id] == Column(table, labels[..i], ids, id)
      {
        for k := 0 to |ids|
          invariant Joined(columns, table, labels, i, ids, k)
        {
          var x := LookUp((ids[k], labels[i].entity), labels[i].time);
          JoinOne(columns, table, labels, i, ids, k);
          columns := columns[ids[k] := columns[ids[k]] + [x]];
        }
        assert ids[..|ids|] == ids && labels[..i + 1][..i] == labels[..i];
      }
      assert labels[..|labels|] == labels;
    }
  }
}
