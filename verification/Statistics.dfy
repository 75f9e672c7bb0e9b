/**
 * The statistical model of the production monitor: mean and variance updated one sample at a time, over the real
 * numbers. The source keeps the standard deviation; the model keeps its square, the number under the root.
 */
module Statistics {

  function Sum(s: seq<real>): real {
    if s == [] then 0.0 else Sum(s[..|s| - 1]) + s[|s| - 1]
  }

  function Times(a: real, b: real): real {
    a * b
  }

  function Square(x: real): real {
    Times(x, x)
  }

  lemma Distribute(a: real, b: real, c: real)
    ensures Times(a, b + c) == Times(a, b) + Times(a, c)
    ensures Times(b + c, a) == Times(b, a) + Times(c, a)
  {
  }

  lemma SquareOfSum(a: real, b: real)
    ensures Square(a + b) == Square(a) + Times(2.0 * b, a) + Square(b)
  {
    assert (a + b) * (a + b) == a * a + 2.0 * b * a + b * b;
  }

  lemma SquareNonNegative(x: real)
    ensures Square(x) >= 0.0
    ensures (Square(x) == 0.0) <==> (x == 0.0)
    ensures Square(-x) == Square(x)
  {
    assert Square(-x) == Square(x);
    if x > 0.0 { Positive(x, x); } else if x < 0.0 { Positive(-x, -x); }
  }

  lemma Positive(a: real, b: real)
    requires a > 0.0 && b > 0.0
    ensures Times(a, b) > 0.0
  {
  }

  /** The squared deviations from m. */
  function Deviations(s: seq<real>, m: real): real {
    if s == [] then 0.0 else Deviations(s[..|s| - 1], m) + Square(s[|s| - 1] - m)
  }

  function Mean(s: seq<real>): real
    requires s != []
  {
    Sum(s) / |s| as real
  }

  /** The population variance. */
  function Variance(s: seq<real>): real
    requires s != []
  {
    Deviations(s, Mean(s)) / |s| as real
  }

  /** Deviations from another point: the cross term is what the mean makes zero. */
  lemma {:induction false} Shift(s: seq<real>, m: real, m': real)
    ensures Deviations(s, m') ==
            Deviations(s, m) + Times(2.0 * (m - m'), Sum(s) - Times(|s| as real, m)) + Times(|s| as real, Square(m - m'))
  {
    if s == [] {
      assert Times(2.0 * (m - m'), 0.0) == 0.0 && Times(0.0, m) == 0.0 && Times(0.0, Square(m - m')) == 0.0;
    } else {
      var init, x := s[..|s| - 1], s[|s| - 1];
      var n, rest := |init| as real, Sum(init) - Times(|init| as real, m);
      Shift(init, m, m');
      SquareOfSum(x - m, m - m');
      Distribute(2.0 * (m - m'), rest, x - m);
      Distribute(Square(m - m'), n, 1.0);
      Distribute(m, n, 1.0);
      assert Times(1.0, m) == m && Times(1.0, Square(m - m')) == Square(m - m');
      hide Times, Square;
      assert |s| as real == n + 1.0;
      assert x - m' == (x - m) + (m - m');
      assert Sum(s) - Times(|s| as real, m) == rest + (x - m);
    }
  }

  /** The algebra of one update, with the step e of the mean. */
  lemma UpdateAlgebra(n: real, d: real, e: real)
    requires d == Times(n + 1.0, e)
    ensures d - e == Times(n, e)
    ensures Times(n, Square(e)) + Square(d - e) == Times(d, d - e)
  {
    assert d == n * e + e;
    assert n * (e * e) + (n * e) * (n * e) == (n * e + e) * (n * e);
  }

  lemma StepOfMean(d: real, n: real)
    requires n > 0.0
    ensures Times(n + 1.0, d / (n + 1.0)) == d
  {
  }

  /** One sample more moves the mean by a step. */
  lemma UpdateMean(s: seq<real>, x: real, e: real)
    requires s != [] && Times(|s| as real + 1.0, e) == x - Mean(s)
    ensures Mean(s + [x]) == Mean(s) + e
  {
    var n, m := |s| as real, Mean(s);
    assert (s + [x])[..|s|] == s;
    Distribute(n + 1.0, m, e);
    Distribute(m, n, 1.0);
    assert Times(1.0, m) == m;
    assert Sum(s + [x]) == Times(n + 1.0, m + e) by { hide Times, Mean; }
    assert |s + [x]| as real == n + 1.0;
  }

  lemma TimesZero(a: real)
    ensures Times(a, 0.0) == 0.0
  {
  }

  lemma SumIsMean(s: seq<real>)
    requires s != []
    ensures Times(|s| as real, Mean(s)) == Sum(s)
  {
    hide Sum;
    var q := Sum(s) / |s| as real;
    assert |s| as real * q == Sum(s);
  }

  /** The new deviations are the old ones and the product of the distances from the old and from the new mean. */
  lemma UpdateDeviations(s: seq<real>, x: real, e: real)
    requires s != [] && Times(|s| as real + 1.0, e) == x - Mean(s)
    ensures var m := Mean(s);
      Deviations(s + [x], m + e) == Deviations(s, m) + Times(x - m, x - (m + e))
  {
    hide Times, Square, Mean, Sum;
    var n, m := |s| as real, Mean(s);
    assert (s + [x])[..|s|] == s;
    Shift(s, m, m + e);
    UpdateAlgebra(n, x - m, e);
    SquareNonNegative(e);
    SumIsMean(s);
    TimesZero(2.0 * (m - (m + e)));
    assert Sum(s) - Times(n, m) == 0.0;
    assert m - (m + e) == -e;
    assert x - (m + e) == (x - m) - e;
  }

  lemma {:induction false} DeviationsNonNegative(s: seq<real>, m: real)
    ensures Deviations(s, m) >= 0.0
  {
    if s != [] {
      DeviationsNonNegative(s[..|s| - 1], m);
      SquareNonNegative(s[|s| - 1] - m);
    }
  }

  // ---------- The model ----------

  /** One metric of the statistical model; `variance` is the square of the standard deviation. */
  datatype Model = Model(mean: real, variance: real, count: nat)

  function UpdateModel(w: Model, x: real): Model {
    if w.count == 0 then Model(x, 0.0, 1)
    else
      var n := w.count as real;
      var delta := x - w.mean;
      var mean := w.mean + delta / (n + 1.0);
      Model(mean, (w.variance * n + delta * (x - mean)) / (n + 1.0), w.count + 1)
  }

  function Learn(samples: seq<real>): Model {
    if samples == [] then Model(0.0, 0.0, 0) else UpdateModel(Learn(samples[..|samples| - 1]), samples[|samples| - 1])
  }

  lemma VarianceTimesCount(s: seq<real>)
    requires s != []
    ensures Variance(s) * |s| as real == Deviations(s, Mean(s))
  {
    hide Deviations, Mean;
  }

  lemma QuotientOfDeviations(s: seq<real>, n: real, d: real)
    requires s != [] && n == |s| as real && d == Deviations(s, Mean(s))
    ensures d / n == Variance(s)
  {
    hide Deviations, Mean;
  }

  lemma UpdateVariance(s: seq<real>, x: real, mean: real)
    requires s != [] && mean == Mean(s) + (x - Mean(s)) / (|s| as real + 1.0)
    ensures Mean(s + [x]) == mean
    ensures Deviations(s + [x], mean) == Variance(s) * |s| as real + (x - Mean(s)) * (x - mean)
  {
    hide *;
    var n, d := |s| as real, x - Mean(s);
    var e := d / (n + 1.0);
    StepOfMean(d, n);
    assert Times(n + 1.0, e) == x - Mean(s);
    UpdateMean(s, x, e);
    UpdateDeviations(s, x, e);
    VarianceTimesCount(s);
    TimesIs(d, x - mean);
  }

  lemma TimesIs(a: real, b: real)
    ensures Times(a, b) == a * b
  {
  }

  lemma UpdateIsBatch(s: seq<real>, x: real)
    requires s != []
    ensures UpdateModel(Model(Mean(s), Variance(s), |s|), x) == Model(Mean(s + [x]), Variance(s + [x]), |s| + 1)
  {
    hide Mean, Deviations, Variance, Times;
    var n := |s| as real;
    var mean := Mean(s) + (x - Mean(s)) / (n + 1.0);
    UpdateVariance(s, x, mean);
    QuotientOfDeviations(s + [x], n + 1.0, Variance(s) * n + (x - Mean(s)) * (x - mean));
  }

  lemma OneSample(x: real)
    ensures Learn([x]) == Model(x, 0.0, 1) && Mean([x]) == x && Variance([x]) == 0.0
  {
    hide Square;
    var s := [x];
    assert s[..0] == [];
    assert Sum(s) == x && Learn(s) == UpdateModel(Learn([]), x);
    assert Mean(s) == x;
    SquareNonNegative(0.0);
    assert Deviations(s, x) == Square(x - x);
  }

  /** After any samples the online model holds exactly their mean and population variance. */
  lemma {:induction false} OnlineIsBatch(samples: seq<real>)
    requires samples != []
    ensures Learn(samples) == Model(Mean(samples), Variance(samples), |samples|)
  {
    var init, x := samples[..|samples| - 1], samples[|samples| - 1];
    assert samples == init + [x];
    if init == [] {
      assert samples == [x];
      OneSample(x);
    } else {
      hide *;
      OnlineIsBatch(init);
      UpdateIsBatch(init, x);
      LearnSnoc(init, x);
    }
  }

  /** The number under the square root is never negative, so every standard deviation is defined. */
  lemma VarianceNonNegative(samples: seq<real>)
    ensures Learn(samples).variance >= 0.0
  {
    hide Deviations, Mean, UpdateModel;
    if samples != [] {
      OnlineIsBatch(samples);
      DeviationsNonNegative(samples, Mean(samples));
    }
  }

  // ---------- Anomalies ----------

  /** The distance from the mean is more than three standard deviations, and these are not zero. */
  predicate ZScoreExceeds(value: real, w: Model) {
    w.variance != 0.0 && Square(value - w.mean) > 9.0 * w.variance
  }

  /** In terms of the standard deviation s: the value lies more than three of them above or below the mean. */
  lemma ZScoreIff(value: real, w: Model, s: real)
    requires s > 0.0 && s * s == w.variance
    ensures ZScoreExceeds(value, w) <==> value - w.mean > 3.0 * s || w.mean - value > 3.0 * s
  {
    Positive(s, s);
    SquaresCompare(value - w.mean, 3.0 * s);
    assert (3.0 * s) * (3.0 * s) == 9.0 * (s * s);
  }

  lemma SquaresCompare(d: real, t: real)
    requires t > 0.0
    ensures Square(d) > Times(t, t) <==> d > t || -d > t
  {
    var p := (d - t) * (d + t);
    assert Square(d) - Times(t, t) == p;
    if d > t {
      Positive(d - t, d + t);
    } else if -d > t {
      Positive(t - d, -d - t);
      assert (t - d) * (-d - t) == p;
    } else {
      NotNegative(t - d, d + t);
      assert (t - d) * (d + t) == -p;
    }
  }

  lemma NotNegative(a: real, b: real)
    requires a >= 0.0 && b >= 0.0
    ensures a * b >= 0.0
  {
  }

  /** How many of the samples the model calls an anomaly. */
  function Exceeding(samples: seq<real>, w: Model): nat {
    if samples == [] then 0
    else Exceeding(samples[..|samples| - 1], w) + if ZScoreExceeds(samples[|samples| - 1], w) then 1 else 0
  }

  lemma {:induction false} NothingExceeds(samples: seq<real>, w: Model)
    requires samples == [] || w.variance == 0.0
    ensures Exceeding(samples, w) == 0
  {
    if samples != [] { NothingExceeds(samples[..|samples| - 1], w); }
  }

  lemma {:induction false} ExceedingCost(samples: seq<real>, w: Model)
    requires w.variance >= 0.0
    ensures Times(Exceeding(samples, w) as real, 9.0 * w.variance) <= Deviations(samples, w.mean)
  {
    var bound := 9.0 * w.variance;
    if samples == [] {
      assert Times(0.0, bound) == 0.0;
    } else {
      var init, x := samples[..|samples| - 1], samples[|samples| - 1];
      ExceedingCost(init, w);
      SquareNonNegative(x - w.mean);
      Distribute(bound, Exceeding(init, w) as real, 1.0);
      assert Times(1.0, bound) == bound;
      hide Times, Square;
    }
  }

  lemma TooMany(k: real, n: real, v: real)
    requires v > 0.0 && 9.0 * k > n
    ensures Times(k, 9.0 * v) > v * n
  {
    assert (9.0 * k - n) * v > 0.0;
    assert k * (9.0 * v) - v * n == (9.0 * k - n) * v;
  }

  lemma FewExceed(samples: seq<real>, w: Model)
    requires samples != [] && w == Learn(samples) && w.variance > 0.0
    ensures 9 * Exceeding(samples, w) <= |samples|
  {
    hide *;
    OnlineIsBatch(samples);
    VarianceTimesCount(samples);
    ExceedingCost(samples, w);
    var k := Exceeding(samples, w);
    if 9 * k > |samples| { TooMany(k as real, |samples| as real, w.variance); }
  }

  /** Of the samples that a model was learned from, it calls at most one in nine an anomaly. */
  lemma AtMostANinthExceeds(samples: seq<real>)
    ensures 9 * Exceeding(samples, Learn(samples)) <= |samples|
  {
    hide Learn, Exceeding, ZScoreExceeds;
    var w := Learn(samples);
    VarianceNonNegative(samples);
    if samples == [] || w.variance == 0.0 {
      NothingExceeds(samples, w);
    } else {
      FewExceed(samples, w);
    }
  }

  // ---------- The model object ----------

  /** The three metrics that updateStatisticalModel updates together. */
  class StatisticalModel {
    var cpu: Model
    var memory: Model
    var goroutines: Model
    var sampleCount: nat
    ghost var cpuSamples: seq<real>
    ghost var memorySamples: seq<real>
    ghost var goroutineSamples: seq<real>

    ghost predicate Valid()
      reads this
    {
      && |cpuSamples| == |memorySamples| == |goroutineSamples| == sampleCount
      && cpu.count == memory.count == goroutines.count == sampleCount
      && cpu == Learn(cpuSamples) && memory == Learn(memorySamples) && goroutines == Learn(goroutineSamples)
    }

    constructor ()
      ensures Valid() && sampleCount == 0
    {
      cpu, memory, goroutines := Model(0.0, 0.0, 0), Model(0.0, 0.0, 0), Model(0.0, 0.0, 0);
      sampleCount, cpuSamples, memorySamples, goroutineSamples := 0, [], [], [];
    }

    static method UpdateOne(w: Model, x: real) returns (w': Model)
      ensures w' == UpdateModel(w, x)
    {
      var n := w.count as real;
      if n == 0.0 {
        w' := Model(x, 0.0, 1);
      } else {
        var delta := x - w.mean;
        var mean := w.mean + delta / (n + 1.0);
        var delta2 := x - mean;
        w' := Model(mean, (w.variance * n + delta * delta2) / (n + 1.0), w.count + 1);
      }
    }

    method UpdateStatisticalModel(cpuUsage: real, memoryPercent: real, goroutineCount: nat)
      requires Valid()
      modifies this
      ensures Valid() && sampleCount == old(sampleCount) + 1
      ensures cpuSamples == old(cpuSamples) + [cpuUsage]
      ensures memorySamples == old(memorySamples) + [memoryPercent]
      ensures goroutineSamples == old(goroutineSamples) + [goroutineCount as real]
    {
      hide UpdateModel, Learn;
      cpu := UpdateOne(cpu, cpuUsage);
      memory := UpdateOne(memory, memoryPercent);
      goroutines := UpdateOne(goroutines, goroutineCount as real);
      sampleCount := sampleCount + 1;
      LearnSnoc(cpuSamples, cpuUsage);
      LearnSnoc(memorySamples, memoryPercent);
      LearnSnoc(goroutineSamples, goroutineCount as real);
      cpuSamples := cpuSamples + [cpuUsage];
      memorySamples := memorySamples + [memoryPercent];
      goroutineSamples := goroutineSamples + [goroutineCount as real];
    }
  }

  lemma LearnSnoc(samples: seq<real>, x: real)
    ensures Learn(samples + [x]) == UpdateModel(Learn(samples), x)
    ensures Learn(samples + [x]).count == Learn(samples).count + 1
  {
    assert (samples + [x])[..|samples|] == samples;
  }
}
