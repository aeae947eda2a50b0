/** The timeline cut into groups of equal event time: prefixes, suffixes and positions of groups. */
module Timeline {
  import opened Collections
  import opened Market

  function UpTo(t: int): Bar -> bool {
    (b: Bar) => b.time <= t
  }

  function After(t: int): Bar -> bool {
    (b: Bar) => b.time > t
  }

  predicate OpensFrom(bars: seq<Bar>, start: int) {
    forall b :: b in bars ==> b.open > 0.0 && start <= b.time
  }

  predicate SpacedBy(bars: seq<Bar>, step: int) {
    forall i, j :: 0 <= i < j < |bars| ==> bars[i].time == bars[j].time || bars[i].time + step <= bars[j].time
  }

  /** Every open is positive, nothing predates the clock, distinct times are a bar apart. */
  predicate Replayable(bars: seq<Bar>, start: int, step: int) {
    OpensFrom(bars, start) && SpacedBy(bars, step)
  }

  predicate SameTime(group: seq<Bar>) {
    forall b :: b in group ==> b.time == group[0].time
  }

  predicate UniformGroups(groups: seq<seq<Bar>>) {
    forall i :: 0 <= i < |groups| ==> groups[i] != [] && SameTime(groups[i])
  }

  lemma FirstGroup(bars: seq<Bar>)
    requires bars != []
    ensures var n := LeadingRun(bars); Groups(bars) == [bars[..n]] + Groups(bars[n..])
  {
  }

  lemma LeadingRunAppend(xs: seq<Bar>, ys: seq<Bar>)
    requires xs != []
    requires ys != [] ==> xs[|xs| - 1].time != ys[0].time
    ensures LeadingRun(xs + ys) == LeadingRun(xs)
  {
    var all := xs + ys;
    var n, m := LeadingRun(xs), LeadingRun(all);
    LeadingRunSpec(xs);
    LeadingRunSpec(all);
    assert forall k :: 0 <= k < |xs| ==> all[k] == xs[k];
    assert ys != [] ==> all[|xs|] == ys[0];
    assert n == m;
  }

  lemma FirstGroupOfAppend(xs: seq<Bar>, ys: seq<Bar>)
    requires xs != []
    requires ys != [] ==> xs[|xs| - 1].time != ys[0].time
    ensures var n := LeadingRun(xs); Groups(xs + ys) == [xs[..n]] + Groups(xs[n..] + ys)
  {
    LeadingRunAppend(xs, ys);
    FirstGroup(xs + ys);
    SplitAppend(xs, ys, LeadingRun(xs));
  }

  lemma {:induction false} GroupsAppend(xs: seq<Bar>, ys: seq<Bar>)
    requires xs != [] && ys != [] ==> xs[|xs| - 1].time != ys[0].time
    ensures Groups(xs + ys) == Groups(xs) + Groups(ys)
    decreases |xs|
  {
    if xs == [] {
      assert xs + ys == ys;
    } else {
      var n := LeadingRun(xs);
      var rest := xs[n..];
      if rest != [] {
        assert rest[|rest| - 1] == xs[|xs| - 1];
      }
      GroupsAppend(rest, ys);
      FirstGroup(xs);
      FirstGroupOfAppend(xs, ys);
      AppendAssociates([xs[..n]], Groups(rest), Groups(ys));
    }
  }

  lemma {:induction false} GroupsWithin(bars: seq<Bar>)
    ensures forall i, b :: 0 <= i < |Groups(bars)| && b in Groups(bars)[i] ==> b in bars
    ensures bars != [] ==> Groups(bars) != [] && Groups(bars)[0][0] == bars[0]
    decreases |bars|
  {
    if bars != [] {
      var n := LeadingRun(bars);
      GroupsWithin(bars[n..]);
      FirstGroup(bars);
      var rest := Groups(bars[n..]);
      forall i, b | 0 <= i < |Groups(bars)| && b in Groups(bars)[i] ensures b in bars {
        if i > 0 {
          assert Groups(bars)[i] == rest[i - 1];
          assert b in bars[n..];
        } else {
          assert b in bars[..n];
        }
      }
    }
  }

  lemma LeadingRunTimes(bars: seq<Bar>)
    requires bars != []
    ensures forall b :: b in bars[..LeadingRun(bars)] ==> b.time == bars[0].time
  {
    LeadingRunSpec(bars);
  }

  lemma RestIsLater(bars: seq<Bar>, n: nat, step: int)
    requires bars != [] && TimeOrdered(bars) && n == LeadingRun(bars) && SpacedBy(bars, step)
    ensures forall b :: b in bars[n..] ==> bars[0].time + step <= b.time
    ensures SpacedBy(bars[n..], step)
  {
    LeadingRunSpec(bars);
    forall b | b in bars[n..] ensures bars[0].time + step <= b.time {
      var k :| 0 <= k < |bars[n..]| && bars[n..][k] == b;
      assert b == bars[n + k];
      assert bars[0].time <= bars[n].time <= bars[n + k].time;
    }
  }

  lemma SpacedJoin(bars: seq<Bar>, n: nat, step: int)
    requires bars != [] && n == LeadingRun(bars) && SpacedBy(bars[n..], step)
    requires forall b :: b in bars[n..] ==> bars[0].time + step <= b.time
    ensures SpacedBy(bars, step)
  {
    LeadingRunSpec(bars);
    var rest := bars[n..];
    forall i, j | 0 <= i < j < |bars|
      ensures bars[i].time == bars[j].time || bars[i].time + step <= bars[j].time
    {
      if n <= j {
        assert bars[j] == rest[j - n] && rest[j - n] in rest;
        if n <= i {
          assert bars[i] == rest[i - n];
        }
      }
    }
  }

  lemma {:induction false} SplitAtTime(bars: seq<Bar>, t: int)
    requires TimeOrdered(bars)
    ensures bars == Filter(bars, UpTo(t)) + Filter(bars, After(t))
  {
    if bars != [] {
      if bars[0].time <= t {
        SplitAtTime(bars[1..], t);
      } else {
        FilterNone(bars, UpTo(t));
        FilterAll(bars, After(t));
      }
    }
  }

  lemma GroupsSplitAtTime(bars: seq<Bar>, t: int)
    requires TimeOrdered(bars)
    ensures Groups(bars) == Groups(Filter(bars, UpTo(t))) + Groups(Filter(bars, After(t)))
  {
    SplitAtTime(bars, t);
    var early, late := Filter(bars, UpTo(t)), Filter(bars, After(t));
    if early != [] && late != [] {
      assert early[|early| - 1] in early && late[0] in late;
    }
    GroupsAppend(early, late);
  }

  lemma {:induction false} GroupsAreUniform(bars: seq<Bar>)
    ensures UniformGroups(Groups(bars))
    decreases |bars|
  {
    if bars != [] {
      var n := LeadingRun(bars);
      GroupsAreUniform(bars[n..]);
      FirstGroup(bars);
      LeadingRunTimes(bars);
    }
  }

  lemma EarlyGroups(early: seq<Bar>, t: int)
    requires forall b :: b in early ==> b.time <= t
    ensures forall i :: 0 <= i < |Groups(early)| ==> Groups(early)[i][0].time <= t
  {
    GroupsWithin(early);
    forall i | 0 <= i < |Groups(early)| ensures Groups(early)[i][0].time <= t {
      assert Groups(early)[i][0] in Groups(early)[i];
    }
  }

  lemma LateGroups(late: seq<Bar>, t: int)
    requires forall b :: b in late ==> b.time > t
    ensures UniformGroups(Groups(late))
    ensures forall i :: 0 <= i < |Groups(late)| ==> Groups(late)[i][0].time > t
  {
    GroupsAreUniform(late);
    GroupsWithin(late);
    forall i | 0 <= i < |Groups(late)| ensures Groups(late)[i][0].time > t {
      assert Groups(late)[i][0] in Groups(late)[i];
    }
  }

  lemma OneGroup(g: seq<Bar>)
    requires g != [] && SameTime(g)
    ensures Groups(g) == [g]
  {
    LeadingRunSpec(g);
    assert LeadingRun(g) == |g|;
    FirstGroup(g);
    assert g[..|g|] == g && g[|g|..] == [];
  }

  function Flatten(groups: seq<seq<Bar>>): seq<Bar> {
    if groups == [] then [] else groups[0] + Flatten(groups[1..])
  }

  lemma {:induction false} FlattenSnoc(groups: seq<seq<Bar>>, g: seq<Bar>)
    ensures Flatten(groups + [g]) == Flatten(groups) + g
  {
    if groups == [] {
      assert [] + [g] == [g];
      assert [g][1..] == [];
      assert Flatten([g]) == g + [] == g;
      assert [] + g == g;
    } else {
      assert (groups + [g])[1..] == groups[1..] + [g];
      FlattenSnoc(groups[1..], g);
      AppendAssociates(groups[0], Flatten(groups[1..]), g);
    }
  }

  lemma FlattenFirst(g0: seq<Bar>, groups: seq<seq<Bar>>, n: nat)
    requires 1 <= n <= |groups| + 1
    ensures Flatten(([g0] + groups)[..n]) == g0 + Flatten(groups[..n - 1])
  {
    assert ([g0] + groups)[..n] == [g0] + groups[..n - 1];
    assert ([g0] + groups[..n - 1])[1..] == groups[..n - 1];
  }

  lemma SplitFirst(g0: seq<Bar>, rest: seq<Bar>, t: int)
    requires (forall b :: b in g0 ==> b.time == t) && forall b :: b in rest ==> b.time > t
    ensures Filter(g0 + rest, UpTo(t)) == g0
  {
    FilterAll(g0, UpTo(t));
    FilterNone(rest, UpTo(t));
    FilterAppend(g0, rest, UpTo(t));
  }

  lemma SplitLater(g0: seq<Bar>, rest: seq<Bar>, t: int)
    requires forall b :: b in g0 ==> b.time <= t
    ensures Filter(g0 + rest, UpTo(t)) == g0 + Filter(rest, UpTo(t))
  {
    FilterAll(g0, UpTo(t));
    FilterAppend(g0, rest, UpTo(t));
  }

  lemma RestAfter(bars: seq<Bar>, m: nat)
    requires bars != [] && TimeOrdered(bars) && m == LeadingRun(bars)
    ensures forall b :: b in bars[m..] ==> b.time > bars[0].time
  {
    LeadingRunSpec(bars);
    forall b | b in bars[m..] ensures b.time > bars[0].time {
      var k :| 0 <= k < |bars[m..]| && bars[m..][k] == b;
      assert bars[m].time <= bars[m + k].time;
    }
  }

  lemma SlicesOrdered(bars: seq<Bar>, m: nat)
    requires SortedBy(bars, ReplayLeq) && TimeOrdered(bars) && m <= |bars|
    ensures SortedBy(bars[..m], ReplayLeq) && SortedBy(bars[m..], ReplayLeq) && TimeOrdered(bars[m..])
  {
    hide ReplayLeq;
  }

  /** Group `n` of ordered bars: a run of equal times, with exactly the groups before it earlier. */
  ghost predicate Placed(bars: seq<Bar>, n: nat, seen: seq<Bar>)
    requires n < |Groups(bars)|
  {
    var g := Groups(bars)[n];
    && g != [] && SameTime(g) && SortedBy(g, ReplayLeq) && (forall b :: b in g ==> b in bars)
    && Filter(bars, UpTo(g[0].time)) == seen + g
    && seen == Flatten(Groups(bars)[..n])
  }

  lemma FirstPlaced(bars: seq<Bar>)
    requires bars != [] && SortedBy(bars, ReplayLeq) && TimeOrdered(bars) && |Groups(bars)| > 0
    ensures Placed(bars, 0, [])
  {
    hide SortedBy, ReplayLeq, Groups, LeadingRun, Filter, TimeOrdered;
    var m := LeadingRun(bars);
    var g0, rest := bars[..m], bars[m..];
    FirstGroup(bars);
    LeadingRunTimes(bars);
    RestAfter(bars, m);
    SlicesOrdered(bars, m);
    assert bars == g0 + rest && g0[0] == bars[0];
    SplitFirst(g0, rest, bars[0].time);
    assert Groups(bars)[..0] == [];
    assert [] + g0 == g0;
  }

  lemma LaterPlaced(bars: seq<Bar>, n: nat, tail: seq<Bar>)
    requires bars != [] && TimeOrdered(bars) && 0 < n < |Groups(bars)|
    requires var rest := bars[LeadingRun(bars)..]; |Groups(rest)| == |Groups(bars)| - 1 && Placed(rest, n - 1, tail)
    ensures Placed(bars, n, bars[..LeadingRun(bars)] + tail)
  {
    hide SortedBy, ReplayLeq, Groups, LeadingRun, Filter, Flatten, TimeOrdered;
    var m := LeadingRun(bars);
    var g0, rest := bars[..m], bars[m..];
    FirstGroup(bars);
    LeadingRunTimes(bars);
    RestAfter(bars, m);
    var g := Groups(rest)[n - 1];
    assert Groups(bars)[n] == g && g[0] in g;
    assert bars == g0 + rest;
    SplitLater(g0, rest, g[0].time);
    FlattenFirst(g0, Groups(rest), n);
    AppendAssociates(g0, tail, g);
  }

  lemma {:induction false} GroupPosition(bars: seq<Bar>, n: nat) returns (seen: seq<Bar>)
    requires SortedBy(bars, ReplayLeq) && TimeOrdered(bars) && n < |Groups(bars)|
    ensures Placed(bars, n, seen)
    decreases |bars|
  {
    hide Placed, SortedBy, TimeOrdered, LeadingRun;
    var m := LeadingRun(bars);
    SlicesOrdered(bars, m);
    if n == 0 {
      seen := [];
      FirstPlaced(bars);
    } else {
      FirstGroup(bars);
      var tail := GroupPosition(bars[m..], n - 1);
      seen := bars[..m] + tail;
      LaterPlaced(bars, n, tail);
    }
  }

  lemma GroupsNonEmpty(bars: seq<Bar>)
    ensures NonEmptyGroups(Groups(bars))
    ensures forall n | 0 <= n <= |Groups(bars)| :: NonEmptyGroups(Groups(bars)[..n])
  {
  }

  lemma SingleGroup(bars: seq<Bar>, i: nat)
    requires StrictlyTimeOrdered(bars) && i < |bars|
    ensures Groups(bars[i..]) == [[bars[i]]] + Groups(bars[i + 1..])
  {
    NextGroup(bars, i, i + 1);
    assert bars[i..i + 1] == [bars[i]];
  }

  predicate NonEmptyGroups(groups: seq<seq<Bar>>) {
    forall i :: 0 <= i < |groups| ==> groups[i] != []
  }

  lemma NoGroupsLeft(bars: seq<Bar>)
    ensures Groups(bars[|bars|..]) == []
  {
  }
}
