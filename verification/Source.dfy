/** The simulation clock and the point-in-time market source (mre/clock.py, mre/source.py). */
module Source {
  import opened Collections
  import opened Market

  class SimClock {
    var now: int

    constructor (start: int)
      ensures now == start
    {
      now := start;
    }

    /** Moves forward or raises; a rejected move leaves the clock where it was. */
    method AdvanceTo(ts: int) returns (r: Result<(), Error>)
      modifies this
      ensures r.Success? <==> old(now) <= ts
      ensures now == if old(now) <= ts then ts else old(now)
      ensures r.Failure? ==> r.error == ClockMovedBackward
    {
      if ts < now {
        return Failure(ClockMovedBackward);
      }
      now := ts;
      return Success(());
    }
  }

  /** Everything a source object holds: the replay-ordered bars and the clock reading. */
  datatype View = View(bars: seq<Bar>, now: int)

  function HasKey(symbol: string, interval: Interval): Bar -> bool {
    (b: Bar) => b.symbol == symbol && b.interval == interval
  }

  function ClosedBy(step: int, now: int): Bar -> bool {
    (b: Bar) => b.time + step <= now
  }

  /** The last `lookback` bars of one stream whose close has occurred by `now`. */
  function History(v: View, symbol: string, interval: Interval, lookback: nat): (h: seq<Bar>)
    requires lookback > 0
    ensures forall b :: b in h ==>
      b in v.bars && b.symbol == symbol && b.interval == interval
      && b.time + StepOf(interval) <= v.now
  {
    var stream := Filter(v.bars, HasKey(symbol, interval));
    LastN(Filter(stream, ClosedBy(StepOf(interval), v.now)), lookback)
  }

  function Latest(v: View, symbol: string, interval: Interval): Option<Bar>
  {
    var h := History(v, symbol, interval, 1);
    if h == [] then None else Some(h[|h| - 1])
  }

  predicate ClosedBar(v: View, symbol: string, interval: Interval, b: Bar) {
    b in v.bars && b.symbol == symbol && b.interval == interval && b.time + StepOf(interval) <= v.now
  }

  /** The closed bars of a stream, in time order. */
  lemma ClosedStream(v: View, symbol: string, interval: Interval)
    requires TimeOrdered(v.bars)
    ensures var closed := Filter(Filter(v.bars, HasKey(symbol, interval)), ClosedBy(StepOf(interval), v.now));
      TimeOrdered(closed) && forall b :: b in closed <==> ClosedBar(v, symbol, interval, b)
  {
    hide Filter, StepOf;
    var stream := Filter(v.bars, HasKey(symbol, interval));
    var closed := Filter(stream, ClosedBy(StepOf(interval), v.now));
    assert SortedBy(v.bars, TimeLeq);
    FilterSorted(v.bars, TimeLeq, HasKey(symbol, interval));
    FilterSorted(stream, TimeLeq, ClosedBy(StepOf(interval), v.now));
    assert forall i, j :: 0 <= i < j < |closed| ==> TimeLeq(closed[i], closed[j]);
    forall b | ClosedBar(v, symbol, interval, b) ensures b in closed {
      FilterKeeps(v.bars, HasKey(symbol, interval), b);
      FilterKeeps(stream, ClosedBy(StepOf(interval), v.now), b);
    }
  }

  /** The latest bar is the newest closed one of its stream; there is none exactly when none has
      closed. */
  lemma LatestIsNewest(v: View, symbol: string, interval: Interval)
    requires TimeOrdered(v.bars)
    ensures match Latest(v, symbol, interval)
      case None => forall b :: !ClosedBar(v, symbol, interval, b)
      case Some(x) => ClosedBar(v, symbol, interval, x)
                      && forall b :: ClosedBar(v, symbol, interval, b) ==> b.time <= x.time
  {
    hide Filter, StepOf, ClosedBar;
    ClosedStream(v, symbol, interval);
    var closed := Filter(Filter(v.bars, HasKey(symbol, interval)), ClosedBy(StepOf(interval), v.now));
    if closed != [] {
      var x := closed[|closed| - 1];
      forall b | b in closed ensures b.time <= x.time {
        var i :| 0 <= i < |closed| && closed[i] == b;
      }
      assert x in closed && LastN(closed, 1) == [x];
    }
  }

  /** Two views no `history` call can tell apart. */
  ghost predicate SameHistory(v: View, w: View) {
    && v.now == w.now
    && forall symbol, interval, n: nat | n > 0 ::
         History(v, symbol, interval, n) == History(w, symbol, interval, n)
  }

  /** The constructor's loop: appends every bar to its stream. */
  method BuildIndex(bars: seq<Bar>) returns (index: map<(string, Interval), seq<Bar>>)
    ensures Indexed(bars, index)
  {
    hide Indexed;
    index := map[];
    NothingIndexed(bars);
    for i := 0 to |bars|
      invariant Indexed(bars[..i], index)
    {
      var key := (bars[i].symbol, bars[i].interval);
      assert bars[..i + 1] == bars[..i] + [bars[i]];
      IndexNext(bars[..i], bars[i], index);
      index := index[key := (if key in index then index[key] else []) + [bars[i]]];
    }
    assert bars[..|bars|] == bars;
  }

  /** The availability comprehension of `history`. */
  method Available(stream: seq<Bar>, step: int, now: int) returns (available: seq<Bar>)
    ensures available == Filter(stream, ClosedBy(step, now))
  {
    available := [];
    for i := 0 to |stream|
      invariant available == Filter(stream[..i], ClosedBy(step, now))
    {
      FilterNext(stream, i, ClosedBy(step, now));
      if stream[i].time + step <= now {
        available := available + [stream[i]];
      }
    }
    assert stream[..|stream|] == stream;
  }

  class MarketReplaySource {
    const bars: seq<Bar>
    const clock: SimClock
    const interval: Interval
    const step: int
    var byKey: map<(string, Interval), seq<Bar>>

    ghost predicate Valid()
      reads this
    {
      && step == StepOf(interval)
      && (forall b :: b in bars ==> b.interval == interval)
      && SortedBy(bars, ReplayLeq)
      && Indexed(bars, byKey)
    }

    function Value(): View
      reads this, clock
    {
      View(bars, clock.now)
    }

    constructor (unsorted: seq<Bar>, clock: SimClock, interval: Interval)
      requires forall b :: b in unsorted ==> b.interval == interval
      ensures Valid()
      ensures this.clock == clock && this.interval == interval
      ensures bars == ReplaySort(unsorted)
    {
      var sorted := ReplaySort(unsorted);
      ReplaySortOrdered(unsorted);
      var index := BuildIndex(sorted);
      this.bars := sorted;
      this.clock := clock;
      this.interval := interval;
      this.step := StepOf(interval);
      this.byKey := index;
    }

    method HistoryOf(symbol: string, interval: Interval, lookback: nat) returns (h: seq<Bar>)
      requires Valid() && lookback > 0
      ensures h == History(Value(), symbol, interval, lookback)
    {
      var stream := if (symbol, interval) in byKey then byKey[(symbol, interval)] else [];
      var available := Available(stream, StepOf(interval), clock.now);
      return LastN(available, lookback);
    }

    method LatestOf(symbol: string, interval: Interval) returns (b: Option<Bar>)
      requires Valid()
      ensures b == Latest(Value(), symbol, interval)
    {
      var h := HistoryOf(symbol, interval, 1);
      if h == [] {
        return None;
      }
      return Some(h[|h| - 1]);
    }
  }

  /** The per-stream index holds exactly each stream, in replay order. */
  ghost predicate Indexed(bars: seq<Bar>, index: map<(string, Interval), seq<Bar>>) {
    forall symbol, interval ::
      (if (symbol, interval) in index then index[(symbol, interval)] else [])
      == Filter(bars, HasKey(symbol, interval))
  }

  lemma NothingIndexed(bars: seq<Bar>)
    ensures Indexed(bars[..0], map[])
  {
  }

  lemma IndexNext(bars: seq<Bar>, b: Bar, index: map<(string, Interval), seq<Bar>>)
    requires Indexed(bars, index)
    ensures var key := (b.symbol, b.interval);
      Indexed(bars + [b], index[key := (if key in index then index[key] else []) + [b]])
  {
    hide Filter;
    var key := (b.symbol, b.interval);
    var index' := index[key := (if key in index then index[key] else []) + [b]];
    forall symbol, interval
      ensures (if (symbol, interval) in index' then index'[(symbol, interval)] else [])
              == Filter(bars + [b], HasKey(symbol, interval))
    {
      FilterAppend(bars, [b], HasKey(symbol, interval));
      FilterOne(b, HasKey(symbol, interval));
      assert (if (symbol, interval) in index then index[(symbol, interval)] else [])
             == Filter(bars, HasKey(symbol, interval));
    }
  }
}
