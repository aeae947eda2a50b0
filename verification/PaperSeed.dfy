/** Warm-up of the feature buffers from fetched candles (paper/engine.py `seed_history`). */
module PaperSeed {
  import opened Collections
  import opened Market
  import opened Merging
  import opened Timeline
  import opened Source
  import opened Strategies
  import opened PaperState
  import opened PaperRefinement

  // ------------------------------------------------------------- idempotence

  ghost predicate Settled(p: Paper, cfg: PaperConfig, s: string, bars: seq<Bar>)
    requires s in cfg.bundles
  {
    SeedOne(p, cfg, s, bars) == (p, 0)
  }

  lemma SeedOneSettles(p: Paper, cfg: PaperConfig, s: string, bars: seq<Bar>)
    requires s in cfg.bundles
    ensures Settled(SeedOne(p, cfg, s, bars).0, cfg, s, bars)
  {
    hide Merge, MaxLookback, Fetched, Settled;
    var q := SeedOne(p, cfg, s, bars).0;
    MergeAgain(Fetched(cfg, s, bars), BufferOf(p.buffers, s));
    SettledIff(q, cfg, s, bars);
  }

  lemma SeedOneLeavesOthers(p: Paper, cfg: PaperConfig, s: string, other: string, bars: seq<Bar>)
    requires s in cfg.bundles && other in cfg.bundles && s != other && Settled(p, cfg, other, bars)
    ensures Settled(SeedOne(p, cfg, s, bars).0, cfg, other, bars)
  {
    hide Merge, MaxLookback, Fetched;
    SettledIff(p, cfg, other, bars);
    SettledIff(SeedOne(p, cfg, s, bars).0, cfg, other, bars);
  }

  /** Nothing left to do for a symbol: enough history, nothing fetched, or the fetched bars are in. */
  lemma SettledIff(p: Paper, cfg: PaperConfig, s: string, bars: seq<Bar>)
    requires s in cfg.bundles
    ensures var incoming := Fetched(cfg, s, bars);
      Settled(p, cfg, s, bars) <==>
      Enough(p, cfg, s) || incoming == [] ||
      (var ordered := Merge(incoming, BufferOf(p.buffers, s));
       s in p.buffers && p.buffers[s] == ordered
       && (ordered != [] ==> s in p.desk.marks && p.desk.marks[s] == ordered[|ordered| - 1].close))
  {
    hide Merge, MaxLookback, Fetched;
    var ordered := Merge(Fetched(cfg, s, bars), BufferOf(p.buffers, s));
    UpdateIsNothing(p.buffers, s, ordered);
    if ordered != [] {
      UpdateIsNothing(p.desk.marks, s, ordered[|ordered| - 1].close);
    }
  }

  lemma UpdateIsNothing<K, V>(m: map<K, V>, k: K, v: V)
    ensures m[k := v] == m <==> k in m && m[k] == v
  {
    var after := m[k := v];
    assert k in after && after[k] == v;
    if k in m && m[k] == v {
      assert after == m;
    }
  }

  lemma {:induction false} SeedSymbolsSettles(p: Paper, cfg: PaperConfig, symbols: seq<string>, bars: seq<Bar>)
    requires forall s :: s in symbols ==> s in cfg.bundles
    ensures forall s :: s in symbols ==> Settled(SeedSymbols(p, cfg, symbols, bars).0, cfg, s, bars)
  {
    if symbols != [] {
      hide SeedOne, Settled;
      var n := |symbols| - 1;
      SeedSymbolsSettles(p, cfg, symbols[..n], bars);
      var q := SeedSymbols(p, cfg, symbols[..n], bars).0;
      SeedOneSettles(q, cfg, symbols[n], bars);
      forall s | s in symbols ensures Settled(SeedOne(q, cfg, symbols[n], bars).0, cfg, s, bars) {
        if s != symbols[n] {
          assert s in symbols[..n];
          SeedOneLeavesOthers(q, cfg, symbols[n], s, bars);
        }
      }
    }
  }

  lemma {:induction false} NothingToSeed(p: Paper, cfg: PaperConfig, symbols: seq<string>, bars: seq<Bar>)
    requires forall s :: s in symbols ==> s in cfg.bundles
    requires forall s :: s in symbols ==> Settled(p, cfg, s, bars)
    ensures SeedSymbols(p, cfg, symbols, bars).0 == p && !AnyAdded(SeedSymbols(p, cfg, symbols, bars).1)
  {
    if symbols != [] {
      hide SeedOne;
      var n := |symbols| - 1;
      NothingToSeed(p, cfg, symbols[..n], bars);
      assert symbols[n] in symbols && SeedOne(p, cfg, symbols[n], bars) == (p, 0);
      var added := SeedSymbols(p, cfg, symbols[..n], bars).1;
      assert SeedSymbols(p, cfg, symbols, bars) == (p, added[symbols[n] := 0]);
    }
  }

  /** Seeding again from the same candles changes nothing at all: not a buffer, not a mark, not a
      journal line. */
  lemma SeedTwice(p: Paper, cfg: PaperConfig, bars: seq<Bar>, first: int, second: int)
    requires forall s :: s in cfg.symbols ==> s in cfg.bundles
    ensures Seed(Seed(p, cfg, bars, first), cfg, bars, second) == Seed(p, cfg, bars, first)
  {
    hide SeedSymbols, SeedOne, Settled;
    SeedSymbolsSettles(p, cfg, cfg.symbols, bars);
    var q := Seed(p, cfg, bars, first);
    forall s | s in cfg.symbols ensures Settled(q, cfg, s, bars) {
      LogLeavesSettled(SeedSymbols(p, cfg, cfg.symbols, bars).0, q, cfg, s, bars);
    }
    NothingToSeed(q, cfg, cfg.symbols, bars);
  }

  lemma LogLeavesSettled(p: Paper, q: Paper, cfg: PaperConfig, s: string, bars: seq<Bar>)
    requires s in cfg.bundles && Settled(p, cfg, s, bars) && q == p.(journal := q.journal)
    ensures Settled(q, cfg, s, bars)
  {
    hide Merge, MaxLookback, Fetched;
    SettledIff(p, cfg, s, bars);
    SettledIff(q, cfg, s, bars);
  }

  // ------------------------------------------------------------- a seeded engine's first decision

  lemma {:induction false} SeedSymbolsBuffers(p: Paper, cfg: PaperConfig, symbols: seq<string>, bars: seq<Bar>, s: string)
    requires Distinct(symbols) && forall x :: x in symbols ==> x in cfg.bundles
    ensures var q := SeedSymbols(p, cfg, symbols, bars).0;
      BufferOf(q.buffers, s) == if s in symbols then BufferOf(SeedOne(p, cfg, s, bars).0.buffers, s) else BufferOf(p.buffers, s)
  {
    if symbols != [] {
      hide SeedOne;
      var n := |symbols| - 1;
      SeedSymbolsBuffers(p, cfg, symbols[..n], bars, s);
      assert symbols == symbols[..n] + [symbols[n]];
      SeedOneBuffers(p, SeedSymbols(p, cfg, symbols[..n], bars).0, cfg, symbols[n], s, bars);
    }
  }

  lemma SeedOneBuffers(p: Paper, q: Paper, cfg: PaperConfig, s: string, other: string, bars: seq<Bar>)
    requires s in cfg.bundles
    ensures other != s ==> BufferOf(SeedOne(q, cfg, s, bars).0.buffers, other) == BufferOf(q.buffers, other)
    ensures BufferOf(p.buffers, s) == BufferOf(q.buffers, s) ==>
      BufferOf(SeedOne(p, cfg, s, bars).0.buffers, s) == BufferOf(SeedOne(q, cfg, s, bars).0.buffers, s)
  {
    hide Merge, MaxLookback, Fetched;
  }

  lemma MergedTimes(incoming: seq<Bar>, existing: seq<Bar>, t: int)
    ensures HasTime(Merge(incoming, existing), t) <==> HasTime(incoming, t) || HasTime(existing, t)
  {
    hide LastPerTime;
    var all := incoming + existing;
    LastPerTimeSpec(all);
    SortByContents(LastPerTime(all), TimeLeq);
    assert HasTime(Merge(incoming, existing), t) <==> HasTime(LastPerTime(all), t);
    TimesOfAppend(incoming, existing, t);
  }

  /** What seeding brings into a buffer: a fetched candle enters it if and only if the buffer is
      shorter than the longest lookback; a longer one is left as it is. */
  lemma SeedEntersIff(p: Paper, cfg: PaperConfig, bars: seq<Bar>, wall: int, s: string, t: int)
    requires Distinct(cfg.symbols) && (forall x :: x in cfg.symbols ==> x in cfg.bundles) && s in cfg.symbols
    ensures var buffer := BufferOf(Seed(p, cfg, bars, wall).buffers, s);
      && (HasTime(buffer, t) <==> HasTime(BufferOf(p.buffers, s), t)
                                  || (!Enough(p, cfg, s) && HasTime(Fetched(cfg, s, bars), t)))
      && (Enough(p, cfg, s) ==> buffer == BufferOf(p.buffers, s))
  {
    hide SeedSymbols, Merge, MaxLookback, Fetched, HasTime;
    SeedSymbolsBuffers(p, cfg, cfg.symbols, bars, s);
    MergedTimes(Fetched(cfg, s, bars), BufferOf(p.buffers, s), t);
    NoTimes(t);
  }

  lemma NoTimes(t: int)
    ensures !HasTime([], t)
  {
  }

  /** A fresh engine, seeded from candles in any order, then handed its first live group, reads
      exactly what a replay of all those bars would read there, where of several candles at one
      time the last listed stands: no warm-up is lost and nothing else is seen. */
  lemma SeededEngineSeesAll(cfg: PaperConfig, bars: seq<Bar>, group: seq<Bar>, wall: int)
    requires ConfigOk(cfg) && group != [] && SortedBy(group, ReplayLeq)
    requires forall b :: b in bars + group ==> Relevant(cfg)(b)
    requires forall b :: b in group ==> b.time == group[0].time
    requires forall b :: b in bars ==> b.time < group[0].time
    ensures var now := group[0].time + StepOf(cfg.interval);
      SameHistory(PaperView(Arrived(Seed(NewPaper(cfg), cfg, bars, wall), group), cfg, now),
                  View(ReplaySort(Deduped(bars)) + group, now))
  {
    hide *;
    var t := group[0].time;
    ConfigBundles(cfg);
    var all := ReplaySort(Deduped(bars)) + group;
    var p := Arrived(Seed(NewPaper(cfg), cfg, bars, wall), group);
    SeededTimeline(cfg, bars, group);
    forall s | s in cfg.symbols ensures BufferOf(p.buffers, s) == Filter(Filter(all, UpTo(t)), BySymbol(s)) {
      SeededArrival(cfg, bars, group, s, wall);
    }
    BufferHistory(cfg, p.buffers, all, t, t + StepOf(cfg.interval));
    ViewIs(p, cfg, t + StepOf(cfg.interval));
  }

  lemma ViewIs(p: Paper, cfg: PaperConfig, now: int)
    ensures PaperView(p, cfg, now) == View(ReplaySort(AllBars(cfg.symbols, p.buffers)), now)
  {
  }

  lemma SeededTimeline(cfg: PaperConfig, bars: seq<Bar>, group: seq<Bar>)
    requires group != [] && SortedBy(group, ReplayLeq)
    requires forall b :: b in bars + group ==> Relevant(cfg)(b)
    requires forall b :: b in group ==> b.time == group[0].time
    requires forall b :: b in bars ==> b.time < group[0].time
    ensures var all := ReplaySort(Deduped(bars)) + group;
      && SortedBy(all, ReplayLeq) && (forall b :: b in all ==> Relevant(cfg)(b))
      && Filter(all, UpTo(group[0].time)) == all
  {
    hide ReplaySort, Relevant;
    ReplaySortOrdered(Deduped(bars));
    assert forall b :: b in bars || b in group ==> b in bars + group;
    JoinSorted(ReplaySort(Deduped(bars)), group);
    FilterAll(ReplaySort(Deduped(bars)) + group, UpTo(group[0].time));
  }

  lemma SeededArrival(cfg: PaperConfig, bars: seq<Bar>, group: seq<Bar>, s: string, wall: int)
    requires ConfigOk(cfg) && s in cfg.symbols && group != []
    requires forall b :: b in bars + group ==> Relevant(cfg)(b)
    ensures BufferOf(Arrived(Seed(NewPaper(cfg), cfg, bars, wall), group).buffers, s)
         == Filter(ReplaySort(Deduped(bars)) + group, BySymbol(s))
  {
    hide Seed, ReplaySort, Filter, EnterBars, ConfigOk;
    ConfigBundles(cfg);
    assert forall b :: b in bars ==> b in bars + group;
    SeededBuffer(cfg, bars, s, wall);
    EnterBarsAppends(Seed(NewPaper(cfg), cfg, bars, wall).buffers, group, s);
    FilterAppend(ReplaySort(Deduped(bars)), group, BySymbol(s));
  }

  lemma LookbackPositive(features: seq<Feature>)
    requires features != [] && forall i :: 0 <= i < |features| ==> features[i].lookback > 0
    ensures MaxLookback(features) > 0
  {
  }

  lemma SeededBuffer(cfg: PaperConfig, bars: seq<Bar>, s: string, wall: int)
    requires ConfigOk(cfg) && s in cfg.symbols
    requires forall b :: b in bars ==> Relevant(cfg)(b)
    ensures BufferOf(Seed(NewPaper(cfg), cfg, bars, wall).buffers, s) == Filter(ReplaySort(Deduped(bars)), BySymbol(s))
  {
    hide SeedSymbols, Merge, MaxLookback, TotalPreorder;
    LookbackPositive(cfg.bundles[s].features);
    FilterAll(bars, Relevant(cfg));
    SeedSymbolsBuffers(NewPaper(cfg), cfg, cfg.symbols, bars, s);
    FreshMerge(s, bars);
    if Filter(bars, BySymbol(s)) == [] {
      NothingFetched(s, bars);
    }
  }

  lemma NothingFetched(s: string, bars: seq<Bar>)
    requires Filter(bars, BySymbol(s)) == []
    ensures Filter(ReplaySort(Deduped(bars)), BySymbol(s)) == []
  {
    FreshMerge(s, bars);
  }

  /** So every feature vector of that group is the full history's. */
  lemma SeededVectors(cfg: PaperConfig, bars: seq<Bar>, group: seq<Bar>, wall: int, s: string)
    requires ConfigOk(cfg) && group != [] && SortedBy(group, ReplayLeq) && s in cfg.bundles
    requires forall b :: b in bars + group ==> Relevant(cfg)(b)
    requires forall b :: b in group ==> b.time == group[0].time
    requires forall b :: b in bars ==> b.time < group[0].time
    ensures var now := group[0].time + StepOf(cfg.interval); var features := cfg.bundles[s].features;
      FeatureVector(features, s, cfg.interval, PaperView(Arrived(Seed(NewPaper(cfg), cfg, bars, wall), group), cfg, now))
      == FeatureVector(features, s, cfg.interval, View(ReplaySort(Deduped(bars)) + group, now))
  {
    hide Seed, PaperView, SameHistory, FeatureVector, Relevant;
    SeededEngineSeesAll(cfg, bars, group, wall);
    var now := group[0].time + StepOf(cfg.interval);
    VectorIsPointInTime(cfg.bundles[s].features, s, cfg.interval,
      PaperView(Arrived(Seed(NewPaper(cfg), cfg, bars, wall), group), cfg, now), View(ReplaySort(Deduped(bars)) + group, now));
  }
}
