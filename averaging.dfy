/**
 * The averages of lines 177-179: `sensorList.Average(x => x.metric)` over
 * `double?` skips null entries and is null when no entry has a value.
 * Readings and averages are reals, so there is no rounding.
 */
module Averaging {
  import opened Wrappers
  import opened Twins

  /** The value of metric `m` of an entry, 0 when it is absent (it adds nothing to a sum). */
  function ValueOr0(e: EnvironmentalInfo, m: Metric): real
  {
    match e.Get(m)
    case Some(v) => v
    case None => 0.0
  }

  /** The sum of the present values of metric `m`. */
  function SumPresent(infos: seq<EnvironmentalInfo>, m: Metric): real
  {
    if infos == [] then 0.0 else ValueOr0(infos[0], m) + SumPresent(infos[1..], m)
  }

  /** The number of entries where metric `m` is present. */
  function CountPresent(infos: seq<EnvironmentalInfo>, m: Metric): nat
  {
    if infos == [] then 0 else (if infos[0].Get(m).Some? then 1 else 0) + CountPresent(infos[1..], m)
  }

  lemma {:induction false} CountPresentZero(infos: seq<EnvironmentalInfo>, m: Metric)
    ensures CountPresent(infos, m) == 0 <==> forall i :: 0 <= i < |infos| ==> infos[i].Get(m).None?
  {
    if infos != [] {
      CountPresentZero(infos[1..], m);
      assert forall i :: 1 <= i < |infos| ==> infos[i] == infos[1..][i - 1];
    }
  }

  /**
   * The null-skipping mean of metric `m`: absent exactly when no entry (in
   * particular, none at all) has the metric.
   */
  function Average(infos: seq<EnvironmentalInfo>, m: Metric): (r: Option<real>)
    ensures r.None? <==> forall i :: 0 <= i < |infos| ==> infos[i].Get(m).None?
    ensures infos == [] ==> r == None
  {
    CountPresentZero(infos, m);
    if CountPresent(infos, m) == 0 then None
    else Some(SumPresent(infos, m) / CountPresent(infos, m) as real)
  }

  /** The per-metric aggregate written to the booth (lines 181-186). */
  function Aggregate(infos: seq<EnvironmentalInfo>): (r: EnvironmentalInfo)
    ensures forall m :: r.Get(m) == Average(infos, m)
  {
    EnvironmentalInfo(Average(infos, Temperature), Average(infos, Humidity), Average(infos, Co2))
  }

  lemma {:induction false} SumCountAppend(xs: seq<EnvironmentalInfo>, ys: seq<EnvironmentalInfo>, m: Metric)
    ensures SumPresent(xs + ys, m) == SumPresent(xs, m) + SumPresent(ys, m)
    ensures CountPresent(xs + ys, m) == CountPresent(xs, m) + CountPresent(ys, m)
  {
    if xs == [] {
      assert xs + ys == ys;
    } else {
      assert (xs + ys)[1..] == xs[1..] + ys;
      SumCountAppend(xs[1..], ys, m);
    }
  }

  lemma RemoveAt(ys: seq<EnvironmentalInfo>, j: nat, m: Metric)
    requires j < |ys|
    ensures multiset(ys[..j] + ys[j + 1..]) == multiset(ys) - multiset{ys[j]}
    ensures SumPresent(ys, m) == ValueOr0(ys[j], m) + SumPresent(ys[..j] + ys[j + 1..], m)
    ensures CountPresent(ys, m) == CountPresent([ys[j]], m) + CountPresent(ys[..j] + ys[j + 1..], m)
  {
    var right := [ys[j]] + ys[j + 1..];
    assert ys == ys[..j] + right;
    assert right[1..] == ys[j + 1..];
    SumCountAppend(ys[..j], right, m);
    SumCountAppend(ys[..j], ys[j + 1..], m);
    assert multiset(ys) == multiset(ys[..j]) + multiset{ys[j]} + multiset(ys[j + 1..]);
  }

  lemma {:induction false} SumCountPermutation(xs: seq<EnvironmentalInfo>, ys: seq<EnvironmentalInfo>, m: Metric)
    requires multiset(xs) == multiset(ys)
    ensures SumPresent(xs, m) == SumPresent(ys, m)
    ensures CountPresent(xs, m) == CountPresent(ys, m)
  {
    if xs == [] {
      assert |ys| == |multiset(ys)| == 0;
    } else {
      var x := xs[0];
      assert x in multiset(ys);
      var j :| 0 <= j < |ys| && ys[j] == x;
      RemoveAt(ys, j, m);
      SplitFirst(xs, m);
      SumCountPermutation(xs[1..], ys[..j] + ys[j + 1..], m);
    }
  }

  lemma SplitFirst(xs: seq<EnvironmentalInfo>, m: Metric)
    requires xs != []
    ensures multiset(xs[1..]) == multiset(xs) - multiset{xs[0]}
    ensures SumPresent(xs, m) == ValueOr0(xs[0], m) + SumPresent(xs[1..], m)
    ensures CountPresent(xs, m) == CountPresent([xs[0]], m) + CountPresent(xs[1..], m)
  {
    assert xs == [xs[0]] + xs[1..];
    assert [xs[0]][1..] == [];
  }

  /** The average does not depend on the order of the entries. */
  lemma AverageOfPermutation(xs: seq<EnvironmentalInfo>, ys: seq<EnvironmentalInfo>, m: Metric)
    requires multiset(xs) == multiset(ys)
    ensures Average(xs, m) == Average(ys, m)
  {
    SumCountPermutation(xs, ys, m);
  }

  /** Nor does the whole aggregate. */
  lemma AggregateOfPermutation(xs: seq<EnvironmentalInfo>, ys: seq<EnvironmentalInfo>)
    requires multiset(xs) == multiset(ys)
    ensures Aggregate(xs) == Aggregate(ys)
  {
    AverageOfPermutation(xs, ys, Temperature);
    AverageOfPermutation(xs, ys, Humidity);
    AverageOfPermutation(xs, ys, Co2);
  }

  /** An entry without the metric is skipped: it neither adds a value nor counts as 0. */
  lemma AverageSkipsAbsent(xs: seq<EnvironmentalInfo>, e: EnvironmentalInfo, m: Metric)
    requires e.Get(m).None?
    ensures Average(xs + [e], m) == Average(xs, m)
  {
    SumCountAppend(xs, [e], m);
    assert [e][1..] == [];
  }

  /** `n` copies of `x` added up: `x * n` without a multiplication. */
  function Repeat(x: real, n: nat): real
  {
    if n == 0 then 0.0 else x + Repeat(x, n - 1)
  }

  lemma {:induction false} RepeatIsProduct(x: real, n: nat)
    ensures Repeat(x, n) == x * n as real
  {
    if n > 0 {
      RepeatIsProduct(x, n - 1);
      assert x * n as real == x * (n - 1) as real + x;
    }
  }

  ghost predicate ValuesWithin(infos: seq<EnvironmentalInfo>, m: Metric, lo: real, hi: real)
  {
    forall i :: 0 <= i < |infos| && infos[i].Get(m).Some? ==> lo <= infos[i].Get(m).value <= hi
  }

  lemma {:induction false} SumWithinBounds(infos: seq<EnvironmentalInfo>, m: Metric, lo: real, hi: real)
    requires ValuesWithin(infos, m, lo, hi)
    ensures Repeat(lo, CountPresent(infos, m)) <= SumPresent(infos, m) <= Repeat(hi, CountPresent(infos, m))
  {
    if infos != [] {
      var tail := infos[1..];
      assert ValuesWithin(tail, m, lo, hi) by {
        forall i | 0 <= i < |tail| ensures tail[i] == infos[i + 1] { }
      }
      SumWithinBounds(tail, m, lo, hi);
    }
  }

  lemma QuotientWithinBounds(s: real, n: real, lo: real, hi: real)
    requires n > 0.0 && lo * n <= s <= hi * n
    ensures lo <= s / n <= hi
  {
    assert s / n * n == s;
  }

  /** The mean lies between any lower and upper bound of the present values. */
  lemma AverageWithinBounds(infos: seq<EnvironmentalInfo>, m: Metric, lo: real, hi: real)
    requires ValuesWithin(infos, m, lo, hi)
    requires Average(infos, m).Some?
    ensures lo <= Average(infos, m).value <= hi
  {
    var count := CountPresent(infos, m);
    var sum := SumPresent(infos, m);
    SumWithinBounds(infos, m, lo, hi);
    assert Average(infos, m).value == sum / count as real;
    MeanWithinBounds(sum, count, lo, hi);
  }

  lemma MeanWithinBounds(sum: real, count: nat, lo: real, hi: real)
    requires count > 0 && Repeat(lo, count) <= sum <= Repeat(hi, count)
    ensures lo <= sum / count as real <= hi
  {
    RepeatIsProduct(lo, count);
    RepeatIsProduct(hi, count);
    QuotientWithinBounds(sum, count as real, lo, hi);
  }
}
