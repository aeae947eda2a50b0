/** Sequence vocabulary shared by every module: options, filters, suffixes and the
    stable sort that Python's `sorted(..., key=...)` performs. */
module Collections {

  datatype Option<+T> = None | Some(value: T)

  datatype Result<+T, +E> = Success(value: T) | Failure(error: E)

  function Abs(x: real): real {
    if x < 0.0 then -x else x
  }

  function Max(a: real, b: real): real {
    if a >= b then a else b
  }

  // ---------------------------------------------------------------- suffixes

  /** Python's `xs[-n:]` for n >= 1. */
  function LastN<T>(xs: seq<T>, n: nat): (ys: seq<T>)
    ensures forall y :: y in ys ==> y in xs
  {
    if |xs| <= n then xs else xs[|xs| - n..]
  }

  /** Python's `xs[lo:hi]` for non-negative bounds: both ends are clamped. */
  function Slice<T>(xs: seq<T>, lo: nat, hi: nat): seq<T> {
    var h := if hi <= |xs| then hi else |xs|;
    if lo <= h then xs[lo..h] else []
  }

  lemma LastNShorter<T>(xs: seq<T>, ys: seq<T>, k: nat, n: nat)
    requires LastN(xs, k) == LastN(ys, k) && n <= k
    ensures LastN(xs, n) == LastN(ys, n)
  {
    assert LastN(xs, n) == LastN(LastN(xs, k), n);
    assert LastN(ys, n) == LastN(LastN(ys, k), n);
  }

  lemma LastNAppend<T>(xs: seq<T>, ys: seq<T>, zs: seq<T>, k: nat)
    requires LastN(xs, k) == LastN(ys, k)
    ensures LastN(xs + zs, k) == LastN(ys + zs, k)
  {
    if |zs| >= k {
      LastNOfAppend(xs, zs, k);
      LastNOfAppend(ys, zs, k);
    } else {
      LastNShorter(xs, ys, k, k - |zs|);
      LastNOfAppend(xs, zs, k);
      LastNOfAppend(ys, zs, k);
    }
  }

  lemma LastNOfAppend<T>(xs: seq<T>, zs: seq<T>, k: nat)
    ensures LastN(xs + zs, k) == if |zs| >= k then LastN(zs, k) else LastN(xs, k - |zs|) + zs
  {
  }

  predicate Distinct<T(==)>(xs: seq<T>) {
    forall i, j :: 0 <= i < j < |xs| ==> xs[i] != xs[j]
  }

  lemma SplitAppend<T>(xs: seq<T>, ys: seq<T>, n: nat)
    requires n <= |xs|
    ensures (xs + ys)[..n] == xs[..n]
    ensures (xs + ys)[n..] == xs[n..] + ys
  {
  }

  lemma AppendAssociates<T>(xs: seq<T>, ys: seq<T>, zs: seq<T>)
    ensures xs + (ys + zs) == (xs + ys) + zs
  {
  }

  // ---------------------------------------------------------------- filters

  function Filter<T>(xs: seq<T>, p: T -> bool): (ys: seq<T>)
    ensures forall y :: y in ys ==> y in xs && p(y)
    ensures |ys| <= |xs|
  {
    if xs == [] then [] else (if p(xs[0]) then [xs[0]] else []) + Filter(xs[1..], p)
  }

  lemma {:induction false} FilterAppend<T>(xs: seq<T>, ys: seq<T>, p: T -> bool)
    ensures Filter(xs + ys, p) == Filter(xs, p) + Filter(ys, p)
  {
    if xs == [] {
      assert xs + ys == ys;
    } else {
      assert (xs + ys)[1..] == xs[1..] + ys;
      FilterAppend(xs[1..], ys, p);
    }
  }

  lemma FilterOne<T>(x: T, p: T -> bool)
    ensures Filter([x], p) == if p(x) then [x] else []
  {
    assert [x][1..] == [];
  }

  lemma FilterNext<T>(xs: seq<T>, i: nat, p: T -> bool)
    requires i < |xs|
    ensures Filter(xs[..i + 1], p) == Filter(xs[..i], p) + (if p(xs[i]) then [xs[i]] else [])
  {
    assert xs[..i + 1] == xs[..i] + [xs[i]];
    FilterAppend(xs[..i], [xs[i]], p);
  }

  lemma {:induction false} FilterAll<T>(xs: seq<T>, p: T -> bool)
    requires forall x :: x in xs ==> p(x)
    ensures Filter(xs, p) == xs
  {
    if xs != [] {
      FilterAll(xs[1..], p);
    }
  }

  lemma {:induction false} FilterKeeps<T>(xs: seq<T>, p: T -> bool, x: T)
    requires x in xs && p(x)
    ensures x in Filter(xs, p)
  {
    if x != xs[0] {
      FilterKeeps(xs[1..], p, x);
    }
  }

  lemma {:induction false} FilterNone<T>(xs: seq<T>, p: T -> bool)
    requires forall x :: x in xs ==> !p(x)
    ensures Filter(xs, p) == []
  {
    if xs != [] {
      FilterNone(xs[1..], p);
    }
  }

  lemma {:induction false} FilterFilter<T>(xs: seq<T>, p: T -> bool, q: T -> bool, both: T -> bool)
    requires forall x :: x in xs ==> both(x) == (p(x) && q(x))
    ensures Filter(Filter(xs, p), q) == Filter(xs, both)
  {
    if xs != [] {
      FilterFilter(xs[1..], p, q, both);
      FilterAppend(if p(xs[0]) then [xs[0]] else [], Filter(xs[1..], p), q);
    }
  }

  // ---------------------------------------------------------------- stable sort

  ghost predicate TotalPreorder<T(!new)>(leq: (T, T) -> bool) {
    && (forall x, y :: leq(x, y) || leq(y, x))
    && (forall x, y, z :: leq(x, y) && leq(y, z) ==> leq(x, z))
  }

  predicate SortedBy<T>(xs: seq<T>, leq: (T, T) -> bool) {
    forall i, j :: 0 <= i < j < |xs| ==> leq(xs[i], xs[j])
  }

  lemma {:induction false} FilterSorted<T(!new)>(xs: seq<T>, leq: (T, T) -> bool, p: T -> bool)
    requires SortedBy(xs, leq)
    ensures SortedBy(Filter(xs, p), leq)
  {
    if xs != [] {
      FilterSorted(xs[1..], leq, p);
      assert forall y :: y in Filter(xs[1..], p) ==> leq(xs[0], y);
    }
  }

  /** Puts `x` before the first element that is not smaller. */
  function InsertBy<T>(x: T, xs: seq<T>, leq: (T, T) -> bool): seq<T> {
    if xs == [] || leq(x, xs[0]) then [x] + xs
    else [xs[0]] + InsertBy(x, xs[1..], leq)
  }

  /** A stable sort: elements that compare equal keep their order. */
  function SortBy<T>(xs: seq<T>, leq: (T, T) -> bool): seq<T> {
    if xs == [] then [] else InsertBy(xs[0], SortBy(xs[1..], leq), leq)
  }

  lemma {:induction false} InsertByContents<T>(x: T, xs: seq<T>, leq: (T, T) -> bool)
    ensures multiset(InsertBy(x, xs, leq)) == multiset([x] + xs)
  {
    if xs == [] || leq(x, xs[0]) {
    } else {
      InsertByContents(x, xs[1..], leq);
      assert xs == [xs[0]] + xs[1..];
    }
  }

  lemma {:induction false} SortByContents<T>(xs: seq<T>, leq: (T, T) -> bool)
    ensures multiset(SortBy(xs, leq)) == multiset(xs)
    ensures |SortBy(xs, leq)| == |xs|
    ensures forall x :: x in SortBy(xs, leq) <==> x in xs
  {
    var ys := SortBy(xs, leq);
    if xs != [] {
      SortByContents(xs[1..], leq);
      InsertByContents(xs[0], SortBy(xs[1..], leq), leq);
      assert xs == [xs[0]] + xs[1..];
    }
    SameContents(xs, ys);
  }

  lemma SameContents<T>(xs: seq<T>, ys: seq<T>)
    requires multiset(xs) == multiset(ys)
    ensures |xs| == |ys|
    ensures forall x :: x in ys <==> x in xs
  {
    assert |multiset(xs)| == |xs| && |multiset(ys)| == |ys|;
    forall x ensures x in ys <==> x in xs {
      assert x in multiset(xs) <==> x in xs;
      assert x in multiset(ys) <==> x in ys;
    }
  }

  lemma {:induction false} InsertBySorted<T(!new)>(x: T, xs: seq<T>, leq: (T, T) -> bool)
    requires TotalPreorder(leq) && SortedBy(xs, leq)
    ensures SortedBy(InsertBy(x, xs, leq), leq)
  {
    if xs == [] {
    } else if leq(x, xs[0]) {
      assert forall y :: y in xs ==> leq(x, y);
    } else {
      InsertBySorted(x, xs[1..], leq);
      InsertByContents(x, xs[1..], leq);
      var rest := InsertBy(x, xs[1..], leq);
      forall y | y in rest ensures leq(xs[0], y) {
        assert y in multiset(rest);
        assert y == x || y in xs[1..];
      }
    }
  }

  lemma {:induction false} SortBySorted<T(!new)>(xs: seq<T>, leq: (T, T) -> bool)
    requires TotalPreorder(leq)
    ensures SortedBy(SortBy(xs, leq), leq)
  {
    if xs != [] {
      SortBySorted(xs[1..], leq);
      InsertBySorted(xs[0], SortBy(xs[1..], leq), leq);
    }
  }

  lemma {:induction false} SortOfSorted<T(!new)>(xs: seq<T>, leq: (T, T) -> bool)
    requires SortedBy(xs, leq)
    ensures SortBy(xs, leq) == xs
  {
    if xs != [] {
      SortOfSorted(xs[1..], leq);
    }
  }

  lemma FilterCons<T>(x: T, xs: seq<T>, p: T -> bool)
    ensures Filter([x] + xs, p) == (if p(x) then [x] else []) + Filter(xs, p)
  {
    assert ([x] + xs)[1..] == xs;
  }

  lemma SortCons<T>(x: T, xs: seq<T>, leq: (T, T) -> bool)
    ensures SortBy([x] + xs, leq) == InsertBy(x, SortBy(xs, leq), leq)
  {
    assert ([x] + xs)[1..] == xs;
  }

  lemma {:induction false} InsertFilter<T(!new)>(x: T, xs: seq<T>, leq: (T, T) -> bool, p: T -> bool)
    requires TotalPreorder(leq) && SortedBy(xs, leq)
    ensures Filter(InsertBy(x, xs, leq), p) ==
            if p(x) then InsertBy(x, Filter(xs, p), leq) else Filter(xs, p)
  {
    if xs == [] {
      FilterCons(x, xs, p);
    } else if leq(x, xs[0]) {
      var kept := Filter(xs, p);
      assert kept != [] ==> kept[0] in kept && leq(xs[0], xs[0]);
      assert forall y :: y in xs ==> leq(x, y);
      FilterCons(x, xs, p);
    } else {
      InsertFilter(x, xs[1..], leq, p);
      var rest := InsertBy(x, xs[1..], leq);
      FilterCons(xs[0], rest, p);
      var kept := Filter(xs[1..], p);
      var all := Filter(xs, p);
      if p(xs[0]) {
        assert all == [xs[0]] + kept && all[0] == xs[0] && all[1..] == kept;
        assert InsertBy(x, all, leq) == [xs[0]] + InsertBy(x, kept, leq);
      } else {
        assert all == kept;
      }
    }
  }

  /** Sorting and filtering commute: this is what stability buys. */
  lemma {:induction false} SortFilter<T(!new)>(xs: seq<T>, leq: (T, T) -> bool, p: T -> bool)
    requires TotalPreorder(leq)
    ensures Filter(SortBy(xs, leq), p) == SortBy(Filter(xs, p), leq)
  {
    if xs != [] {
      SortFilter(xs[1..], leq, p);
      SortBySorted(xs[1..], leq);
      InsertFilter(xs[0], SortBy(xs[1..], leq), leq, p);
      if p(xs[0]) {
        SortCons(xs[0], Filter(xs[1..], p), leq);
      } else {
        assert Filter(xs, p) == Filter(xs[1..], p);
      }
    }
  }

  lemma {:induction false} InsertAppend<T>(x: T, xs: seq<T>, ys: seq<T>, leq: (T, T) -> bool)
    requires forall y :: y in ys ==> leq(x, y)
    ensures InsertBy(x, xs + ys, leq) == InsertBy(x, xs, leq) + ys
  {
    if xs == [] {
      assert xs + ys == ys;
    } else if !leq(x, xs[0]) {
      InsertAppend(x, xs[1..], ys, leq);
      assert (xs + ys)[1..] == xs[1..] + ys;
    }
  }

  /** Later material sorts after earlier material and does not disturb it. */
  lemma {:induction false} SortAppend<T(!new)>(xs: seq<T>, ys: seq<T>, leq: (T, T) -> bool)
    requires forall x, y :: x in xs && y in ys ==> leq(x, y)
    ensures SortBy(xs + ys, leq) == SortBy(xs, leq) + SortBy(ys, leq)
  {
    if xs == [] {
      assert xs + ys == ys;
    } else {
      assert (xs + ys)[1..] == xs[1..] + ys;
      SortAppend(xs[1..], ys, leq);
      SortByContents(ys, leq);
      InsertAppend(xs[0], SortBy(xs[1..], leq), SortBy(ys, leq), leq);
    }
  }
}
