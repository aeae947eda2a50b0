/** Funding-rate features: the latest settlement as of a bar, its z-score and its regime
    (features/definitions/funding.py). */
module Funding {
  import opened Collections
  import opened Moments
  import opened MomentValues

  datatype Record = Record(symbol: string, time: int, rate: real)

  predicate Earlier(a: Record, b: Record) {
    a.time <= b.time
  }

  function Of(symbol: string): Record -> bool {
    (r: Record) => r.symbol == symbol
  }

  function SettledBy(t: int): Record -> bool {
    (r: Record) => r.time <= t
  }

  /** One symbol's records in time order. */
  function Stream(records: seq<Record>, symbol: string): seq<Record> {
    Filter(SortBy(records, Earlier), Of(symbol))
  }

  function Bucket(buckets: map<string, seq<Record>>, symbol: string): seq<Record> {
    if symbol in buckets then buckets[symbol] else []
  }

  /** The constructor's loop over the sorted records. */
  method BucketBySymbol(records: seq<Record>) returns (buckets: map<string, seq<Record>>)
    ensures forall symbol :: Bucket(buckets, symbol) == Stream(records, symbol)
  {
    var sorted: seq<Record> := SortBy(records, Earlier);
    buckets := map[];
    for i := 0 to |sorted|
      invariant forall symbol :: Bucket(buckets, symbol) == Filter(sorted[..i], Of(symbol))
    {
      var r := sorted[i];
      forall symbol ensures Filter(sorted[..i + 1], Of(symbol))
        == Filter(sorted[..i], Of(symbol)) + (if Of(symbol)(r) then [r] else [])
      {
        FilterNext(sorted, i, Of(symbol));
      }
      buckets := buckets[r.symbol := Bucket(buckets, r.symbol) + [r]];
    }
    assert sorted[..|sorted|] == sorted;
  }

  /** Index of the newest record not after `t`, or -1. */
  function LatestIndex(stream: seq<Record>, t: int): (i: int)
    ensures -1 <= i < |stream|
  {
    |Filter(stream, SettledBy(t))| - 1
  }

  function SettledAfter(t: int): Record -> bool {
    (r: Record) => r.time > t
  }

  lemma {:induction false} SplitAtSettled(stream: seq<Record>, t: int)
    requires SortedBy(stream, Earlier)
    ensures stream == Filter(stream, SettledBy(t)) + Filter(stream, SettledAfter(t))
  {
    if stream != [] {
      if stream[0].time <= t {
        SplitAtSettled(stream[1..], t);
      } else {
        FilterNone(stream, SettledBy(t));
        FilterAll(stream, SettledAfter(t));
      }
    }
  }

  /** In a time-ordered stream the settled records are the first ones. */
  lemma SettledIsPrefix(stream: seq<Record>, t: int)
    requires SortedBy(stream, Earlier)
    ensures stream[..LatestIndex(stream, t) + 1] == Filter(stream, SettledBy(t))
    ensures forall i :: 0 <= i < |stream| ==> (stream[i].time <= t <==> i <= LatestIndex(stream, t))
  {
    hide Filter, SortedBy;
    SplitAtSettled(stream, t);
    var early, late := Filter(stream, SettledBy(t)), Filter(stream, SettledAfter(t));
    forall i | 0 <= i < |stream| ensures stream[i].time <= t <==> i < |early| {
      assert if i < |early| then stream[i] in early else stream[i] in late;
    }
  }

  /** `_latest_index`: bisect_right on the stream's times, less one. */
  method FindLatest(stream: seq<Record>, t: int) returns (i: int)
    requires SortedBy(stream, Earlier)
    ensures i == LatestIndex(stream, t)
  {
    var lo, hi := 0, |stream|;
    while lo < hi
      invariant 0 <= lo <= hi <= |stream|
      invariant forall k :: 0 <= k < lo ==> stream[k].time <= t
      invariant forall k :: hi <= k < |stream| ==> stream[k].time > t
    {
      var mid := (lo + hi) / 2;
      if t < stream[mid].time {
        assert forall k :: mid < k < |stream| ==> Earlier(stream[mid], stream[k]);
        hi := mid;
      } else {
        assert forall k :: 0 <= k < mid ==> Earlier(stream[k], stream[mid]);
        lo := mid + 1;
      }
    }
    SettledIsPrefix(stream, t);
    i := lo - 1;
    if i + 1 < |stream| {
      assert stream[i + 1].time > t;
    }
    if i >= 0 {
      assert stream[i].time <= t;
    }
  }

  function Rates(records: seq<Record>): (xs: seq<real>)
    ensures |xs| == |records| && forall i :: 0 <= i < |xs| ==> xs[i] == records[i].rate
  {
    seq(|records|, i requires 0 <= i < |records| => records[i].rate)
  }

  /** The settlements a bar at `t` may use: the stream up to its latest index. */
  function Settled(records: seq<Record>, symbol: string, t: int): seq<Record> {
    var stream := Stream(records, symbol);
    stream[..LatestIndex(stream, t) + 1]
  }

  function RateOf(settled: seq<Record>): Option<real> {
    if settled == [] then None else Some(settled[|settled| - 1].rate)
  }

  function ZScoreOf(settled: seq<Record>, window: nat, root: real -> real): Option<real>
    requires window >= 2
  {
    var n := |settled|;
    if n < window then None
    else
      var values := Rates(settled[n - window..]);
      Some(Standardised(settled[n - 1].rate - Mean(values), Variance(values), root))
  }

  function RegimeOf(settled: seq<Record>, short: nat, long: nat, root: real -> real): Option<real>
    requires 2 <= short < long
  {
    var n := |settled|;
    if n < long then None
    else
      var longRates, shortRates := Rates(settled[n - long..]), Rates(settled[n - short..]);
      var longMean, shortMean, sd := Mean(longRates), Mean(shortRates), root(Variance(longRates));
      if sd == 0.0 then Some(if shortMean == longMean then 0.0 else if shortMean > longMean then 1.0 else -1.0)
      else Some((shortMean - longMean) / sd)
  }

  // ------------------------------------------------------------- bounds

  lemma FundingZBound(settled: seq<Record>, window: nat, root: real -> real)
    requires IsSqrt(root) && window >= 2
    ensures var z := ZScoreOf(settled, window, root);
      z.Some? ==> Square(z.value) <= window as real - 1.0
  {
    hide Mean, Variance, Standardised, Square;
    if |settled| >= window {
      ZScoreBound(Rates(settled[|settled| - window..]), root);
    }
  }

  /** `value^2 <= (long - short) / short`; the sign fallback for a flat window never shows. */
  lemma FundingRegimeBound(settled: seq<Record>, short: nat, long: nat, root: real -> real)
    requires IsSqrt(root) && 2 <= short < long
    ensures var x := RegimeOf(settled, short, long, root);
      && (x.Some? ==> short as real * Square(x.value) <= (long - short) as real)
      && (x.Some? && root(Variance(Rates(settled[|settled| - long..]))) == 0.0 ==> x == Some(0.0))
  {
    hide Mean, Variance, Square;
    var n := |settled|;
    if n >= long {
      var xs := Rates(settled[n - long..]);
      assert xs[long - short..] == Rates(settled[n - short..]);
      RegimeBound(xs, short, root);
    }
  }

  /** The z-score and the regime are those of the newest `window` (`long`) rates, and undefined on
      fewer settlements. */
  lemma FundingValues(settled: seq<Record>, window: nat, short: nat, long: nat, root: real -> real)
    requires IsSqrt(root) && window >= 2 && 2 <= short < long
    ensures var z := ZScoreOf(settled, window, root);
      && (z.Some? <==> |settled| >= window)
      && (z.Some? ==>
            var rates := Rates(settled[|settled| - window..]);
            IsStandardised(z.value, 1.0, Excess(rates, 1), Spread(rates)))
    ensures var x := RegimeOf(settled, short, long, root);
      && (x.Some? <==> |settled| >= long)
      && (x.Some? ==>
            var rates := Rates(settled[|settled| - long..]);
            IsStandardised(x.value, short as real, Excess(rates, short), Spread(rates)))
  {
    hide Mean, Variance, Standardised, IsStandardised, Excess, Spread;
    var n := |settled|;
    if n >= window {
      ZScoreIs(Rates(settled[n - window..]), root);
    }
    if n >= long {
      var rates := Rates(settled[n - long..]);
      assert rates[long - short..] == Rates(settled[n - short..]);
      RegimeIs(rates, short, root);
    }
  }

  // ------------------------------------------------------------- point in time

  lemma SettledStream(records: seq<Record>, symbol: string, t: int)
    ensures SortedBy(Stream(records, symbol), Earlier)
    ensures Filter(Stream(records, symbol), SettledBy(t)) == Stream(Filter(records, SettledBy(t)), symbol)
  {
    SortBySorted(records, Earlier);
    FilterSorted(SortBy(records, Earlier), Earlier, Of(symbol));
    var both := (r: Record) => r.symbol == symbol && r.time <= t;
    var sorted := SortBy(records, Earlier);
    FilterFilter(sorted, Of(symbol), SettledBy(t), both);
    FilterFilter(sorted, SettledBy(t), Of(symbol), both);
    SortFilter(records, Earlier, SettledBy(t));
  }

  /** What a bar may use is exactly its symbol's records not after it, in time order: records that
      settle later never reach a funding feature, whatever order the records were loaded in. */
  lemma SettledIsPointInTime(records: seq<Record>, symbol: string, t: int)
    ensures Settled(records, symbol, t) == Stream(Filter(records, SettledBy(t)), symbol)
  {
    hide Stream, Filter, SortedBy;
    SettledStream(records, symbol, t);
    SettledIsPrefix(Stream(records, symbol), t);
  }

  /** The rate a bar reads is that of its symbol's newest record not after it, and there is none
      exactly when the symbol has no such record. */
  lemma LatestRate(records: seq<Record>, symbol: string, t: int)
    ensures var rate := RateOf(Settled(records, symbol, t));
      && (rate.None? <==> forall r :: r in records ==> r.symbol != symbol || r.time > t)
      && (rate.Some? ==>
            exists r :: r in records && r.symbol == symbol && r.time <= t && r.rate == rate.value
              && forall q :: q in records && q.symbol == symbol && q.time <= t ==> q.time <= r.time)
  {
    hide SortBy, Filter, SortedBy;
    var stream := Stream(records, symbol);
    var settled := Settled(records, symbol, t);
    SettledStream(records, symbol, t);
    SettledIsPrefix(stream, t);
    SortByContents(records, Earlier);
    forall r: Record ensures r in settled <==> r in records && r.symbol == symbol && r.time <= t {
      StreamHolds(records, symbol, t, r);
    }
    if settled != [] {
      NewestLast(stream, settled);
    }
  }

  lemma StreamHolds(records: seq<Record>, symbol: string, t: int, r: Record)
    ensures r in Filter(Stream(records, symbol), SettledBy(t)) <==> r in records && r.symbol == symbol && r.time <= t
  {
    hide SortBy, Filter;
    SortByContents(records, Earlier);
    var stream := Stream(records, symbol);
    if r in records && r.symbol == symbol && r.time <= t {
      FilterKeeps(SortBy(records, Earlier), Of(symbol), r);
      FilterKeeps(stream, SettledBy(t), r);
    }
    assert r in Filter(stream, SettledBy(t)) ==> r in stream && SettledBy(t)(r);
    assert r in stream ==> Of(symbol)(r);
  }

  lemma NewestLast(stream: seq<Record>, front: seq<Record>)
    requires SortedBy(stream, Earlier) && front <= stream && front != []
    ensures front[|front| - 1] in front && forall q :: q in front ==> q.time <= front[|front| - 1].time
  {
    forall q | q in front ensures q.time <= front[|front| - 1].time {
      var i :| 0 <= i < |front| && front[i] == q;
      assert i < |front| - 1 ==> Earlier(stream[i], stream[|front| - 1]);
    }
  }

  lemma FundingIgnoresFuture(
      xs: seq<Record>, ys: seq<Record>, symbol: string, t: int, window: nat, short: nat, root: real -> real)
    requires Filter(xs, SettledBy(t)) == Filter(ys, SettledBy(t)) && 2 <= short < window
    ensures RateOf(Settled(xs, symbol, t)) == RateOf(Settled(ys, symbol, t))
    ensures ZScoreOf(Settled(xs, symbol, t), window, root) == ZScoreOf(Settled(ys, symbol, t), window, root)
    ensures RegimeOf(Settled(xs, symbol, t), short, window, root) == RegimeOf(Settled(ys, symbol, t), short, window, root)
  {
    hide *;
    SettledIsPointInTime(xs, symbol, t);
    SettledIsPointInTime(ys, symbol, t);
  }
}
