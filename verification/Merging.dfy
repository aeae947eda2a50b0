/** Merging fetched candles into a live buffer: one bar per event time, live ones winning
    (paper/engine.py `seed_history`). */
module Merging {
  import opened Collections
  import opened Market

  predicate HasTime(bars: seq<Bar>, t: int) {
    exists b :: b in bars && b.time == t
  }

  /** A dict keyed by event time: of the bars sharing a time, the last one written stays. */
  function LastPerTime(bars: seq<Bar>): seq<Bar> {
    if bars == [] then []
    else (if HasTime(bars[1..], bars[0].time) then [] else [bars[0]]) + LastPerTime(bars[1..])
  }

  /** Fetched bars first, so that live ones overwrite them. */
  function Merge(incoming: seq<Bar>, existing: seq<Bar>): seq<Bar> {
    TimeSort(LastPerTime(incoming + existing))
  }

  predicate OneBarPerTime(bars: seq<Bar>) {
    forall i, j :: 0 <= i < j < |bars| ==> bars[i].time != bars[j].time
  }

  /** Bars at times that `ys` does not cover. */
  function Untaken(ys: seq<Bar>): Bar -> bool {
    (b: Bar) => !HasTime(ys, b.time)
  }

  lemma UntakenAt(ys: seq<Bar>, b: Bar)
    ensures Untaken(ys)(b) == !HasTime(ys, b.time)
  {
  }

  lemma TimesOfCons(b: Bar, bars: seq<Bar>, t: int)
    ensures HasTime([b] + bars, t) <==> b.time == t || HasTime(bars, t)
  {
    assert b in [b] + bars;
    assert forall x :: x in bars ==> x in [b] + bars;
  }

  lemma TimesOfAppend(xs: seq<Bar>, ys: seq<Bar>, t: int)
    ensures HasTime(xs + ys, t) <==> HasTime(xs, t) || HasTime(ys, t)
  {
    assert forall b :: b in xs || b in ys ==> b in xs + ys;
  }

  lemma LastPerTimeCons(b: Bar, bars: seq<Bar>)
    ensures LastPerTime([b] + bars) == (if HasTime(bars, b.time) then [] else [b]) + LastPerTime(bars)
  {
    assert ([b] + bars)[1..] == bars;
  }

  lemma {:induction false} LastPerTimeSpec(bars: seq<Bar>)
    ensures OneBarPerTime(LastPerTime(bars))
    ensures forall t :: HasTime(LastPerTime(bars), t) <==> HasTime(bars, t)
    ensures forall b :: b in LastPerTime(bars) ==> b in bars
  {
    if bars != [] {
      LastPerTimeSpec(bars[1..]);
      var kept := LastPerTime(bars[1..]);
      forall t ensures HasTime(LastPerTime(bars), t) <==> HasTime(bars, t) {
        TimesOfCons(bars[0], bars[1..], t);
        TimesOfCons(bars[0], kept, t);
        assert [bars[0]] + bars[1..] == bars;
      }
    }
  }

  lemma {:induction false} NothingDropped(ys: seq<Bar>)
    requires OneBarPerTime(ys)
    ensures LastPerTime(ys) == ys
  {
    if ys != [] {
      NothingDropped(ys[1..]);
      assert [ys[0]] + ys[1..] == ys;
    }
  }

  /** The second part always survives when it holds one bar per time. */
  lemma {:induction false} LaterWins(xs: seq<Bar>, ys: seq<Bar>)
    requires OneBarPerTime(ys)
    ensures LastPerTime(xs + ys) == Filter(LastPerTime(xs), Untaken(ys)) + ys
  {
    if xs == [] {
      assert xs + ys == ys;
      NothingDropped(ys);
    } else {
      hide *;
      var x, rest := xs[0], xs[1..];
      LaterWins(rest, ys);
      assert xs == [x] + rest && xs + ys == [x] + (rest + ys);
      LastPerTimeCons(x, rest + ys);
      LastPerTimeCons(x, rest);
      TimesOfAppend(rest, ys, x.time);
      UntakenAt(ys, x);
      var kept := Filter(LastPerTime(rest), Untaken(ys));
      if HasTime(rest, x.time) {
        assert LastPerTime(xs) == LastPerTime(rest);
        assert LastPerTime(xs + ys) == kept + ys;
      } else {
        FilterCons(x, LastPerTime(rest), Untaken(ys));
        var first := if HasTime(ys, x.time) then [] else [x];
        AppendAssociates(first, kept, ys);
      }
    }
  }

  lemma {:induction false} InsertStrict(x: Bar, xs: seq<Bar>)
    requires StrictlyTimeOrdered(xs) && !HasTime(xs, x.time)
    ensures StrictlyTimeOrdered(InsertBy(x, xs, TimeLeq))
  {
    if xs == [] {
    } else if TimeLeq(x, xs[0]) {
      assert xs[0] in xs;
    } else {
      InsertStrict(x, xs[1..]);
      InsertByContents(x, xs[1..], TimeLeq);
      var rest := InsertBy(x, xs[1..], TimeLeq);
      forall y | y in rest ensures xs[0].time < y.time {
        assert y in multiset(rest);
        assert y == x || y in xs[1..];
      }
    }
  }

  lemma {:induction false} StrictIfDistinct(bars: seq<Bar>)
    requires OneBarPerTime(bars)
    ensures StrictlyTimeOrdered(TimeSort(bars))
    ensures forall b :: b in TimeSort(bars) <==> b in bars
  {
    SortByContents(bars, TimeLeq);
    if bars != [] {
      StrictIfDistinct(bars[1..]);
      InsertStrict(bars[0], TimeSort(bars[1..]));
    }
  }

  /** A seeded buffer is strictly ordered in time; it holds every live bar, and at each time with
      no live bar exactly what was fetched for that time. */
  lemma MergeKeepsLive(incoming: seq<Bar>, existing: seq<Bar>)
    requires OneBarPerTime(existing)
    ensures var ordered := Merge(incoming, existing);
      && StrictlyTimeOrdered(ordered)
      && (forall b :: b in existing ==> b in ordered)
      && (forall b :: b in ordered && !HasTime(existing, b.time) ==> b in incoming)
      && (forall t :: HasTime(ordered, t) <==> HasTime(incoming, t) || HasTime(existing, t))
  {
    var all := incoming + existing;
    LastPerTimeSpec(all);
    StrictIfDistinct(LastPerTime(all));
    LaterWins(incoming, existing);
    var ordered := Merge(incoming, existing);
    forall t ensures HasTime(ordered, t) <==> HasTime(incoming, t) || HasTime(existing, t) {
      assert HasTime(ordered, t) <==> HasTime(LastPerTime(all), t);
      TimesOfAppend(incoming, existing, t);
    }
    forall b | b in ordered && !HasTime(existing, b.time) ensures b in incoming {
      assert b in all;
    }
  }

  /** Fetching the same candles again changes nothing. */
  lemma MergeAgain(incoming: seq<Bar>, existing: seq<Bar>)
    ensures Merge(incoming, Merge(incoming, existing)) == Merge(incoming, existing)
  {
    var all := incoming + existing;
    LastPerTimeSpec(all);
    StrictIfDistinct(LastPerTime(all));
    var ordered := Merge(incoming, existing);
    LaterWins(incoming, ordered);
    LastPerTimeSpec(incoming);
    forall b | b in LastPerTime(incoming) ensures HasTime(ordered, b.time) {
      assert b in all && HasTime(all, b.time);
      assert HasTime(LastPerTime(all), b.time);
    }
    FilterNone(LastPerTime(incoming), Untaken(ordered));
    assert LastPerTime(incoming + ordered) == ordered;
    SortOfSorted(ordered, TimeLeq);
  }

  lemma FirstIsThere(bars: seq<Bar>)
    ensures bars == [] || bars[0] in bars
  {
  }

  lemma {:induction false} SameBarsSameOrder(xs: seq<Bar>, ys: seq<Bar>)
    requires StrictlyTimeOrdered(xs) && StrictlyTimeOrdered(ys)
    requires forall b :: b in xs <==> b in ys
    ensures xs == ys
  {
    FirstIsThere(xs);
    FirstIsThere(ys);
    if xs != [] {
      assert xs[0] == ys[0];
      forall b ensures b in xs[1..] <==> b in ys[1..] {
        assert b in xs[1..] <==> b in xs && b != xs[0];
        assert b in ys[1..] <==> b in ys && b != ys[0];
      }
      SameBarsSameOrder(xs[1..], ys[1..]);
    }
  }

  /** The order in which the dict lists its bars does not matter to the merge. */
  lemma AnyOrderWillDo(values: seq<Bar>, incoming: seq<Bar>, existing: seq<Bar>)
    requires OneBarPerTime(values)
    requires forall b :: b in values <==> b in LastPerTime(incoming + existing)
    ensures TimeSort(values) == Merge(incoming, existing)
  {
    LastPerTimeSpec(incoming + existing);
    StrictIfDistinct(values);
    StrictIfDistinct(LastPerTime(incoming + existing));
    SameBarsSameOrder(TimeSort(values), TimeSort(LastPerTime(incoming + existing)));
  }

  lemma WriteOne(written: seq<Bar>, b: Bar)
    ensures LastPerTime(written + [b]) == Filter(LastPerTime(written), Untaken([b])) + [b]
  {
    LaterWins(written, [b]);
  }

  method MergeBars(incoming: seq<Bar>, existing: seq<Bar>) returns (ordered: seq<Bar>)
    ensures ordered == Merge(incoming, existing)
  {
    hide LastPerTime, Filter;
    var all := incoming + existing;
    var merged: seq<Bar> := [];
    NothingDropped(all[..0]);
    for i := 0 to |all|
      invariant merged == LastPerTime(all[..i])
    {
      assert all[..i + 1] == all[..i] + [all[i]];
      WriteOne(all[..i], all[i]);
      merged := Filter(merged, Untaken([all[i]])) + [all[i]];
    }
    assert all[..|all|] == all;
    ordered := TimeSort(merged);
  }

  lemma {:induction false} SameSymbolSort(bars: seq<Bar>, s: string)
    requires forall b :: b in bars ==> b.symbol == s
    ensures ReplaySort(bars) == TimeSort(bars)
  {
    if bars != [] {
      SameSymbolSort(bars[1..], s);
      SortByContents(bars[1..], TimeLeq);
      SameSymbolInsert(bars[0], TimeSort(bars[1..]), s);
    }
  }

  lemma {:induction false} SameSymbolInsert(x: Bar, xs: seq<Bar>, s: string)
    requires x.symbol == s && forall b :: b in xs ==> b.symbol == s
    ensures InsertBy(x, xs, ReplayLeq) == InsertBy(x, xs, TimeLeq)
  {
    SymbolLeqTotal(s, s);
    if xs != [] {
      SameSymbolInsert(x, xs[1..], s);
    }
  }

  predicate Again(b: Bar, bars: seq<Bar>) {
    exists x :: x in bars && x.symbol == b.symbol && x.time == b.time
  }

  /** Of the candles a symbol has at one time, the last one listed. */
  function Deduped(bars: seq<Bar>): (kept: seq<Bar>)
    ensures forall b :: b in kept ==> b in bars
  {
    if bars == [] then []
    else (if Again(bars[0], bars[1..]) then [] else [bars[0]]) + Deduped(bars[1..])
  }

  lemma AgainIsTime(b: Bar, bars: seq<Bar>)
    ensures Again(b, bars) <==> HasTime(Filter(bars, BySymbol(b.symbol)), b.time)
  {
    if Again(b, bars) {
      var x :| x in bars && x.symbol == b.symbol && x.time == b.time;
      FilterKeeps(bars, BySymbol(b.symbol), x);
    }
  }

  lemma {:induction false} DedupedOf(bars: seq<Bar>, s: string)
    ensures Filter(Deduped(bars), BySymbol(s)) == LastPerTime(Filter(bars, BySymbol(s)))
  {
    if bars != [] {
      hide Filter, Again, LastPerTime, HasTime;
      var b, rest := bars[0], bars[1..];
      DedupedOf(rest, s);
      assert bars == [b] + rest;
      FilterCons(b, rest, BySymbol(s));
      FilterCons(b, Deduped(rest), BySymbol(s));
      AgainIsTime(b, rest);
      LastPerTimeCons(b, Filter(rest, BySymbol(s)));
      assert forall xs: seq<Bar> :: [] + xs == xs;
    }
  }

  lemma {:induction false} NothingDeduped(bars: seq<Bar>)
    requires forall i, j :: 0 <= i < j < |bars| ==> bars[i].symbol != bars[j].symbol || bars[i].time != bars[j].time
    ensures Deduped(bars) == bars
  {
    if bars != [] {
      NothingDeduped(bars[1..]);
    }
  }

  /** Filling an empty buffer gives the symbol's part of the deduplicated, sorted timeline. */
  lemma FreshMerge(s: string, bars: seq<Bar>)
    ensures Merge(Filter(bars, BySymbol(s)), []) == Filter(ReplaySort(Deduped(bars)), BySymbol(s))
  {
    var own := Filter(bars, BySymbol(s));
    assert own + [] == own;
    DedupedOf(bars, s);
    SameSymbolSort(Filter(Deduped(bars), BySymbol(s)), s);
    ReplayOrder();
    SortFilter(Deduped(bars), ReplayLeq, BySymbol(s));
  }

  lemma JoinSorted(xs: seq<Bar>, ys: seq<Bar>)
    requires SortedBy(xs, ReplayLeq) && SortedBy(ys, ReplayLeq)
    requires forall x, y :: x in xs && y in ys ==> x.time < y.time
    ensures SortedBy(xs + ys, ReplayLeq)
  {
  }
}
