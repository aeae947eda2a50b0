/** Walk-forward splits and purged, embargoed folds (wfo/splitter.py). */
module Splitter {
  import opened Collections

  /** Index ranges into the sorted bars; the ends are exclusive. */
  datatype Split = Split(trainStart: int, trainEnd: int, testStart: int, testEnd: int)

  datatype SplitError = BadWindow | BadStep | BadFoldCount | TooFewBars | NegativeGap

  // ------------------------------------------------------------- walk-forward

  function SplitAt(train: int, test: int, expanding: bool, start: int): Split {
    Split(if expanding then 0 else start - train, start, start, start + test)
  }

  lemma StepCount(room: int, step: int, k: int)
    requires step >= 1 && k >= 0
    ensures k * step <= room <==> k < room / step + 1
  {
    var q := room / step;
    assert q * step <= room < (q + 1) * step;
    if k <= q {
      assert k * step <= q * step;
    } else {
      assert k * step >= (q + 1) * step;
    }
  }

  /** Exactly `(n - train - test) / step + 1` splits when the first one fits, `step` bars apart,
      each inside the bars with its training part ending where its test begins; none otherwise.
      A bad step is noticed only when the first split fits. */
  method WalkForwardSplits(n: int, train: int, test: int, stepBars: Option<int>, expanding: bool)
    returns (r: Result<seq<Split>, SplitError>)
    ensures train < 1 || test < 1 ==> r == Failure(BadWindow)
    ensures train >= 1 && test >= 1 && n < train + test ==> r == Success([])
    ensures train >= 1 && test >= 1 && n >= train + test ==>
      var step := if stepBars.Some? then stepBars.value else test;
      if step < 1 then r == Failure(BadStep)
      else
        && r.Success? && |r.value| == (n - train - test) / step + 1
        && (forall k :: 0 <= k < |r.value| ==>
              && r.value[k].trainStart == (if expanding then 0 else k * step)
              && r.value[k].testStart == train + k * step && r.value[k].testEnd == train + k * step + test)
        && (forall s :: s in r.value ==> 0 <= s.trainStart < s.trainEnd == s.testStart < s.testEnd <= n)
  {
    if train < 1 || test < 1 {
      return Failure(BadWindow);
    }
    if n < train + test {
      return Success([]);
    }
    var step := if stepBars.Some? then stepBars.value else test;
    if step < 1 {
      return Failure(BadStep);
    }
    var splits: seq<Split> := [];
    var testStart := train;
    while testStart + test <= n
      invariant testStart == train + |splits| * step && testStart >= train
      invariant |splits| > 0 ==> (|splits| - 1) * step <= n - train - test
      invariant forall k :: 0 <= k < |splits| ==> splits[k] == SplitAt(train, test, expanding, train + k * step)
      invariant forall s :: s in splits ==> 0 <= s.trainStart < s.trainEnd == s.testStart < s.testEnd <= n
      decreases n - testStart
    {
      TimesNext(|splits|, step);
      splits := splits + [SplitAt(train, test, expanding, testStart)];
      testStart := testStart + step;
    }
    StepCount(n - train - test, step, |splits|);
    if |splits| > 0 {
      StepCount(n - train - test, step, |splits| - 1);
    }
    return Success(splits);
  }

  // ------------------------------------------------------------- purged, embargoed folds

  datatype Fold = Fold(trainRanges: seq<(int, int)>, testStart: int, testEnd: int)

  function Least(a: int, b: int): int {
    if a <= b then a else b
  }

  function TestStart(n: int, folds: int, i: int): int
    requires folds >= 1
  {
    i * (n / folds)
  }

  function TestEnd(n: int, folds: int, i: int): int
    requires folds >= 1
  {
    if i < folds - 1 then TestStart(n, folds, i) + n / folds else n
  }

  function FoldAt(n: int, folds: int, purge: int, embargo: int, i: int): Fold
    requires folds >= 1
  {
    var s, e := TestStart(n, folds, i), TestEnd(n, folds, i);
    var purged, embargoed := if s - purge > 0 then s - purge else 0, Least(n, e + embargo);
    Fold((if purged > 0 then [(0, purged)] else []) + (if embargoed < n then [(embargoed, n)] else []), s, e)
  }

  method PurgedEmbargoFolds(n: int, folds: int, purge: int, embargo: int) returns (r: Result<seq<Fold>, SplitError>)
    ensures folds < 2 ==> r == Failure(BadFoldCount)
    ensures folds >= 2 && n < folds ==> r == Failure(TooFewBars)
    ensures folds >= 2 && n >= folds && (purge < 0 || embargo < 0) ==> r == Failure(NegativeGap)
    ensures folds >= 2 && n >= folds && purge >= 0 && embargo >= 0 ==>
      && r.Success? && |r.value| == folds
      && forall i :: 0 <= i < folds ==> r.value[i] == FoldAt(n, folds, purge, embargo, i)
  {
    if folds < 2 {
      return Failure(BadFoldCount);
    }
    if n < folds {
      return Failure(TooFewBars);
    }
    if purge < 0 || embargo < 0 {
      return Failure(NegativeGap);
    }
    var size := n / folds;
    var out: seq<Fold> := [];
    for i := 0 to folds
      invariant |out| == i && forall k :: 0 <= k < i ==> out[k] == FoldAt(n, folds, purge, embargo, k)
    {
      var testStart := i * size;
      var testEnd := if i < folds - 1 then testStart + size else n;
      var purgedStart := if testStart - purge > 0 then testStart - purge else 0;
      var embargoedEnd := Least(n, testEnd + embargo);
      var ranges: seq<(int, int)> := [];
      if purgedStart > 0 {
        ranges := ranges + [(0, purgedStart)];
      }
      if embargoedEnd < n {
        ranges := ranges + [(embargoedEnd, n)];
      }
      out := out + [Fold(ranges, testStart, testEnd)];
    }
    return Success(out);
  }

  predicate InTest(f: Fold, x: int) {
    f.testStart <= x < f.testEnd
  }

  predicate InTraining(f: Fold, x: int) {
    exists k :: 0 <= k < |f.trainRanges| && f.trainRanges[k].0 <= x < f.trainRanges[k].1
  }

  lemma FoldBounds(n: int, folds: int, i: int)
    requires 2 <= folds <= n && 0 <= i < folds
    ensures n / folds >= 1
    ensures 0 <= TestStart(n, folds, i) < TestEnd(n, folds, i) <= n
    ensures i < folds - 1 ==> TestEnd(n, folds, i) == TestStart(n, folds, i + 1)
  {
    var size := n / folds;
    TimesNext(i, size);
  }

  lemma TimesNext(a: int, c: int)
    ensures (a + 1) * c == a * c + c
    ensures c + a * c == (a + 1) * c
  {
  }

  lemma {:induction false} StartsIncrease(n: int, folds: int, i: int, j: int)
    requires 2 <= folds <= n && 0 <= i < j < folds
    ensures TestEnd(n, folds, i) <= TestStart(n, folds, j)
    decreases j - i
  {
    hide TestStart, TestEnd;
    FoldBounds(n, folds, i);
    if i + 1 < j {
      FoldBounds(n, folds, i + 1);
      StartsIncrease(n, folds, i + 1, j);
    }
  }

  lemma {:induction false} OwnerOf(n: int, folds: int, x: int, last: int) returns (i: int)
    requires 2 <= folds <= n && 0 <= last < folds && 0 <= x < TestEnd(n, folds, last)
    ensures 0 <= i <= last && TestStart(n, folds, i) <= x < TestEnd(n, folds, i)
    decreases last
  {
    FoldBounds(n, folds, last);
    if x >= TestStart(n, folds, last) {
      i := last;
    } else {
      assert last > 0 by {
        assert TestStart(n, folds, 0) == 0;
      }
      FoldBounds(n, folds, last - 1);
      i := OwnerOf(n, folds, x, last - 1);
    }
  }

  /** The test regions partition the timeline: every bar is tested in exactly one fold. */
  lemma TestsPartition(n: int, folds: int, purge: int, embargo: int, x: int)
    requires 2 <= folds <= n && 0 <= x < n
    ensures exists i :: 0 <= i < folds && InTest(FoldAt(n, folds, purge, embargo, i), x)
    ensures forall i, j ::
      (0 <= i < folds && 0 <= j < folds && InTest(FoldAt(n, folds, purge, embargo, i), x)
       && InTest(FoldAt(n, folds, purge, embargo, j), x)) ==> i == j
  {
    var owner := OwnerOf(n, folds, x, folds - 1);
    assert InTest(FoldAt(n, folds, purge, embargo, owner), x);
    forall i, j | 0 <= i < folds && 0 <= j < folds && InTest(FoldAt(n, folds, purge, embargo, i), x)
                  && InTest(FoldAt(n, folds, purge, embargo, j), x)
      ensures i == j
    {
      if i < j {
        StartsIncrease(n, folds, i, j);
      } else if j < i {
        StartsIncrease(n, folds, j, i);
      }
    }
  }

  /** Every fold tests as many bars as the others, but for the last, which takes the remainder too. */
  lemma FoldSizes(n: int, folds: int, purge: int, embargo: int, i: int)
    requires 2 <= folds <= n && 0 <= i < folds
    ensures var f := FoldAt(n, folds, purge, embargo, i);
      f.testEnd - f.testStart == n / folds + (if i == folds - 1 then n % folds else 0)
  {
    assert n == folds * (n / folds) + n % folds;
    assert folds * (n / folds) == (folds - 1) * (n / folds) + n / folds;
  }

  /** A fold trains on exactly the bars outside its test region, purge zone and embargo zone, and
      lists no empty range. */
  lemma TrainingIsTheRest(n: int, folds: int, purge: int, embargo: int, i: int, x: int)
    requires 2 <= folds <= n && 0 <= i < folds && purge >= 0 && embargo >= 0
    ensures var f := FoldAt(n, folds, purge, embargo, i);
      && (InTraining(f, x) <==> 0 <= x < n && (x < f.testStart - purge || x >= f.testEnd + embargo))
      && forall r :: r in f.trainRanges ==> 0 <= r.0 < r.1 <= n
  {
    FoldBounds(n, folds, i);
    hide TestStart, TestEnd;
    var f := FoldAt(n, folds, purge, embargo, i);
    if 0 <= x < n && x < f.testStart - purge {
      assert f.trainRanges[0] == (0, f.testStart - purge);
    }
    if 0 <= x < n && x >= f.testEnd + embargo {
      assert f.trainRanges[|f.trainRanges| - 1] == (f.testEnd + embargo, n);
    }
  }

  /** Two label windows `[a, a + h]` and `[b, b + h]` share a bar. */
  predicate WindowsMeet(a: int, b: int, h: int) {
    a <= b + h && b <= a + h
  }

  predicate Leaks(f: Fold, a: int, b: int, h: int) {
    InTraining(f, a) && InTest(f, b) && WindowsMeet(a, b, h)
  }

  /** No training label overlaps a test label exactly when the purge covers the horizon wherever
      something is left to train on before the test, and the embargo wherever after it. */
  lemma LeakFreeIff(n: int, folds: int, purge: int, embargo: int, i: int, h: nat)
    requires 2 <= folds <= n && 0 <= i < folds && purge >= 0 && embargo >= 0
    ensures var f := FoldAt(n, folds, purge, embargo, i);
      (forall a, b :: !Leaks(f, a, b, h))
      <==> (f.testStart > purge ==> purge >= h) && (f.testEnd + embargo < n ==> embargo >= h)
  {
    FoldBounds(n, folds, i);
    hide FoldAt, TestStart, TestEnd, InTraining;
    var f := FoldAt(n, folds, purge, embargo, i);
    FoldSpan(n, folds, purge, embargo, i);
    forall a: int ensures InTraining(f, a) <==> 0 <= a < n && (a < f.testStart - purge || a >= f.testEnd + embargo) {
      TrainingIsTheRest(n, folds, purge, embargo, i, a);
    }
    if f.testStart > purge && purge < h {
      assert Leaks(f, f.testStart - purge - 1, f.testStart, h);
    }
    if f.testEnd + embargo < n && embargo < h {
      assert Leaks(f, f.testEnd + embargo, f.testEnd - 1, h);
    }
  }

  lemma FoldSpan(n: int, folds: int, purge: int, embargo: int, i: int)
    requires 2 <= folds <= n && 0 <= i < folds
    ensures var f := FoldAt(n, folds, purge, embargo, i);
      0 <= f.testStart < f.testEnd <= n
  {
    FoldBounds(n, folds, i);
  }

  /** So purge and embargo of at least the horizon make every fold leak-free. */
  lemma HorizonGapsSuffice(n: int, folds: int, purge: int, embargo: int, i: int, h: nat)
    requires 2 <= folds <= n && 0 <= i < folds && purge >= h && embargo >= h
    ensures forall a, b :: !Leaks(FoldAt(n, folds, purge, embargo, i), a, b, h)
  {
    LeakFreeIff(n, folds, purge, embargo, i, h);
  }
}
