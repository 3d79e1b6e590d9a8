/**
 Streaming statistics (Welford's update) against the two-pass definitions, and how many baseline
 samples a feature can flag. Arithmetic is over the reals; rounding is not modelled.
 */
module AnomalyDetectors {
  import opened Wrappers

  datatype RunningStats = RunningStats(count: nat, mean: real, m2: real)

  const NEW_STATS := RunningStats(0, 0.0, 0.0)
  const FEATURE_COUNT := 8

  function Update(s: RunningStats, value: real): RunningStats {
    var count := s.count + 1;
    var delta := value - s.mean;
    var mean := s.mean + delta / count as real;
    RunningStats(count, mean, s.m2 + delta * (value - mean))
  }

  function Variance(s: RunningStats): real { if s.count < 2 then 1.0 else s.m2 / (s.count - 1) as real }

  function Abs(x: real): real { if x < 0.0 then -x else x }

  /** The z-score, given the standard deviation. */
  function ZScore(s: RunningStats, std: real, value: real): real {
    if std < 0.000_000_000_1 then 0.0 else (value - s.mean) / std
  }

  /** A value is flagged when its z-score exceeds the threshold in size. */
  predicate Exceeds(s: RunningStats, std: real, threshold: real, value: real) { Abs(ZScore(s, std, value)) > threshold }

  ghost predicate IsRoot(std: real, variance: real) { std >= 0.0 && Square(std) == variance }

  function Streamed(samples: seq<real>): RunningStats {
    if samples == [] then NEW_STATS else Update(Streamed(samples[..|samples| - 1]), samples[|samples| - 1])
  }

  /** Values of one feature over a history of feature vectors. */
  function Column(history: seq<seq<real>>, i: nat): seq<real>
    requires forall h | h in history :: i < |h|
  {
    seq(|history|, k requires 0 <= k < |history| => assert history[k] in history; history[k][i])
  }

  /** What is reported of a feature beyond the threshold; its place stands for its name. */
  datatype AnomalousFeature = AnomalousFeature(index: nat, value: real, zScore: real, mean: real, stdDev: real)

  function Report(i: nat, s: RunningStats, sqrt: real -> real, value: real): AnomalousFeature {
    AnomalousFeature(i, value, Abs(ZScore(s, sqrt(Variance(s)), value)), s.mean, sqrt(Variance(s)))
  }

  /**
   The anomaly score: half of it marks the threshold, and one is the most. A zero threshold divides to infinity or
   NaN, and both cap at one.
   */
  function Normalised(maxZ: real, threshold: real): real {
    if threshold == 0.0 then 1.0 else Quotient(maxZ, threshold * 2.0)
  }

  function Quotient(x: real, y: real): real
    requires y != 0.0
  {
    if x / y <= 1.0 then x / y else 1.0
  }

  class AnomalyDetector {
    const threshold: real
    const minSamples: nat
    const sqrt: real -> real
    var featureStats: seq<RunningStats>
    /** Every vector the baseline was updated with since the last reset. */
    ghost var history: seq<seq<real>>

    ghost predicate Valid()
      reads this
    {
      && |featureStats| == FEATURE_COUNT && (forall h | h in history :: |h| == FEATURE_COUNT)
      && forall i | 0 <= i < FEATURE_COUNT :: featureStats[i] == Streamed(Column(history, i))
    }

    constructor (threshold: real, minSamples: nat, sqrt: real -> real)
      ensures Valid() && history == []
      ensures this.threshold == threshold && this.minSamples == minSamples && this.sqrt == sqrt
    {
      this.threshold, this.minSamples, this.sqrt := threshold, minSamples, sqrt;
      featureStats := seq(FEATURE_COUNT, _ => NEW_STATS);
      history := [];
    }

    method UpdateBaseline(values: seq<real>)
      requires Valid() && |values| == FEATURE_COUNT
      modifies this
      ensures Valid() && history == old(history) + [values]
    {
      for i := 0 to FEATURE_COUNT
        invariant |featureStats| == FEATURE_COUNT && history == old(history)
        invariant forall k | 0 <= k < i :: featureStats[k] == Update(old(featureStats)[k], values[k])
        invariant forall k | i <= k < FEATURE_COUNT :: featureStats[k] == old(featureStats)[k]
      {
        featureStats := featureStats[i := Update(featureStats[i], values[i])];
      }
      history := history + [values];
      forall k | 0 <= k < FEATURE_COUNT ensures featureStats[k] == Streamed(Column(history, k)) {
        ColumnOneMore(old(history), values, k);
      }
    }

    /**
     The features whose z-score leaves the threshold, in order, and the normalised score; nothing
     before enough samples came in.
     */
    method Detect(values: seq<real>) returns (anomalous: seq<AnomalousFeature>, score: real)
      requires Valid() && |values| == FEATURE_COUNT
      ensures |history| < minSamples ==> anomalous == [] && score == 0.0
      ensures |history| >= minSamples ==>
        var all := AllReports(featureStats, sqrt, values);
        && SelectsBeyond(anomalous, all, threshold)
        && exists z :: IsGreatest(z, all) && score == Normalised(z, threshold)
      ensures |history| >= minSamples && threshold > 0.0 ==> (anomalous != [] <==> score > 0.5)
      ensures forall r | r in anomalous ::
        r.index < FEATURE_COUNT && Tells(r, Column(history, r.index), sqrt, values[r.index])
      ensures forall i: nat | i < FEATURE_COUNT && |history| >= minSamples && RootIsUsable(Column(history, i), sqrt) ::
        (exists r :: r in anomalous && r.index == i) <==> StandsOut(Column(history, i), threshold, values[i])
    {
      StreamedCounts(Column(history, 0));
      if featureStats[0].count < minSamples { return [], 0.0; }
      var greatest;
      anomalous, greatest := Examine(values);
      score := Normalised(greatest, threshold);
      SomeBeyond(anomalous, AllReports(featureStats, sqrt, values), threshold, greatest);
      if threshold > 0.0 { HalfMarksThreshold(greatest, threshold); }
      ReportsStandOut(history, featureStats, sqrt, threshold, values, anomalous);
    }

    /** The loop of `detect`: the reports beyond the threshold, and the greatest deviation. */
    method Examine(values: seq<real>) returns (anomalous: seq<AnomalousFeature>, greatest: real)
      requires |values| == |featureStats|
      ensures SelectsBeyond(anomalous, AllReports(featureStats, sqrt, values), threshold)
      ensures IsGreatest(greatest, AllReports(featureStats, sqrt, values))
    {
      anomalous, greatest := [], 0.0;
      ghost var all := AllReports(featureStats, sqrt, values);
      for i := 0 to |values|
        invariant SelectsBeyond(anomalous, all[..i], threshold)
        invariant IsGreatest(greatest, all[..i])
      {
        var report := Report(i, featureStats[i], sqrt, values[i]);
        assert all[..i + 1] == all[..i] + [report];
        BeyondOneMore(anomalous, all[..i], threshold, report);
        GreatestOneMore(greatest, all[..i], report);
        if report.zScore > greatest { greatest := report.zScore; }
        if report.zScore > threshold { anomalous := anomalous + [report]; }
      }
      assert all[..|values|] == all;
    }

    method Reset()
      modifies this
      ensures Valid() && history == []
    {
      featureStats := seq(FEATURE_COUNT, _ => NEW_STATS);
      history := [];
    }
  }

  /** The report of every feature, flagged or not. */
  function AllReports(stats: seq<RunningStats>, sqrt: real -> real, values: seq<real>): seq<AnomalousFeature>
    requires |stats| == |values|
  {
    seq(|stats|, i requires 0 <= i < |stats| => Report(i, stats[i], sqrt, values[i]))
  }

  predicate Ordered(reports: seq<AnomalousFeature>) {
    forall j, k | 0 <= j < k < |reports| :: reports[j].index < reports[k].index
  }

  /** In order, exactly the reports beyond the threshold. */
  ghost predicate SelectsBeyond(anomalous: seq<AnomalousFeature>, all: seq<AnomalousFeature>, threshold: real) {
    Ordered(anomalous) && forall r :: r in anomalous <==> r in all && r.zScore > threshold
  }

  /** The greatest deviation, or zero for none. */
  ghost predicate IsGreatest(z: real, all: seq<AnomalousFeature>) {
    && (forall r | r in all :: 0.0 <= r.zScore <= z)
    && if all == [] then z == 0.0 else exists r :: r in all && r.zScore == z
  }

  lemma BeyondOneMore(anomalous: seq<AnomalousFeature>, all: seq<AnomalousFeature>, threshold: real,
                      r: AnomalousFeature)
    requires SelectsBeyond(anomalous, all, threshold) && forall q | q in all :: q.index < r.index
    ensures SelectsBeyond(if r.zScore > threshold then anomalous + [r] else anomalous, all + [r], threshold)
  {
    var more := anomalous + [r];
    forall j, k | 0 <= j < k < |more| ensures more[j].index < more[k].index {
      assert more[j] in anomalous;
    }
  }

  lemma GreatestOneMore(z: real, all: seq<AnomalousFeature>, r: AnomalousFeature)
    requires IsGreatest(z, all) && r.zScore >= 0.0
    ensures IsGreatest(if r.zScore > z then r.zScore else z, all + [r])
  {
    assert r in all + [r];
    if all != [] {
      var q :| q in all && q.zScore == z;
      assert q in all + [r];
    }
  }

  lemma SomeBeyond(anomalous: seq<AnomalousFeature>, all: seq<AnomalousFeature>, threshold: real, z: real)
    requires all != [] && SelectsBeyond(anomalous, all, threshold) && IsGreatest(z, all)
    ensures z >= 0.0 && (anomalous != [] <==> z > threshold)
  {
    var r :| r in all && r.zScore == z;
    if anomalous != [] { assert anomalous[0] in anomalous; }
  }

  /** The normalised score passes one half exactly when the deviation passes the threshold. */
  lemma HalfMarksThreshold(z: real, threshold: real)
    requires threshold > 0.0 && z >= 0.0
    ensures Normalised(z, threshold) > 0.5 <==> z > threshold
  {
    var y := threshold * 2.0;
    DivideBack(z, y);
    if z / y <= 0.5 { ProductGrows(z / y, 0.5, y); }
    if z <= threshold { Cancel(z / y, 0.5, y); }
  }

  lemma ColumnOneMore(history: seq<seq<real>>, values: seq<real>, i: nat)
    requires i < FEATURE_COUNT && |values| == FEATURE_COUNT && forall h | h in history :: |h| == FEATURE_COUNT
    ensures forall h | h in history + [values] :: i < |h|
    ensures Streamed(Column(history + [values], i)) == Update(Streamed(Column(history, i)), values[i])
  {
    var column := Column(history + [values], i);
    assert column[..|history|] == Column(history, i);
  }

  lemma {:induction false} StreamedCounts(samples: seq<real>)
    ensures Streamed(samples).count == |samples|
  {
    if samples != [] { StreamedCounts(samples[..|samples| - 1]); }
  }

  // ---- the two-pass definitions ------------------------------------------------------------

  function Sum(samples: seq<real>): real {
    if samples == [] then 0.0 else Sum(samples[..|samples| - 1]) + samples[|samples| - 1]
  }

  function Square(x: real): real { x * x }

  /** Sum of squared deviations from a centre. */
  function Deviations(samples: seq<real>, centre: real): real {
    if samples == [] then 0.0
    else Deviations(samples[..|samples| - 1], centre) + Square(samples[|samples| - 1] - centre)
  }

  /** Sum of plain deviations from a centre. */
  function Residual(samples: seq<real>, centre: real): real {
    if samples == [] then 0.0 else Residual(samples[..|samples| - 1], centre) + (samples[|samples| - 1] - centre)
  }

  /** The mixed terms of shifting a centre by `d`. */
  function Cross(samples: seq<real>, centre: real, d: real): real {
    if samples == [] then 0.0
    else Cross(samples[..|samples| - 1], centre, d) + Double(d, samples[|samples| - 1] - centre)
  }

  function Double(d: real, e: real): real { 2.0 * d * e }

  /** `n` copies of `x`, added up. */
  function Times(n: nat, x: real): real { if n == 0 then 0.0 else Times(n - 1, x) + x }

  lemma {:induction false} TimesIsProduct(n: nat, x: real)
    ensures Times(n, x) == n as real * x
  {
    if n > 0 {
      TimesIsProduct(n - 1, x);
      assert (n - 1) as real * x + x == ((n - 1) as real + 1.0) * x;
    }
  }

  lemma SquareOfDifference(e: real, d: real)
    ensures Square(e - d) == Square(e) - Double(d, e) + Square(d)
  {
  }

  lemma {:induction false} ShiftCentre(samples: seq<real>, c: real, d: real)
    ensures Deviations(samples, c + d) == Deviations(samples, c) - Cross(samples, c, d) + Times(|samples|, Square(d))
  {
    if samples != [] {
      var init, x := samples[..|samples| - 1], samples[|samples| - 1];
      ShiftCentre(init, c, d);
      SquareOfDifference(x - c, d);
      assert x - (c + d) == x - c - d;
    }
  }

  lemma {:induction false} ShiftResidual(samples: seq<real>, c: real, d: real)
    ensures Residual(samples, c + d) == Residual(samples, c) - Times(|samples|, d)
  {
    if samples != [] { ShiftResidual(samples[..|samples| - 1], c, d); }
  }

  lemma DoubleAdds(d: real, e: real, f: real)
    ensures Double(d, e + f) == Double(d, e) + Double(d, f)
  {
  }

  lemma {:induction false} CrossIsResidual(samples: seq<real>, c: real, d: real)
    ensures Cross(samples, c, d) == Double(d, Residual(samples, c))
  {
    if samples != [] {
      var init, x := samples[..|samples| - 1], samples[|samples| - 1];
      CrossIsResidual(init, c, d);
      DoubleAdds(d, Residual(init, c), x - c);
    }
  }

  lemma {:induction false} ResidualIsSum(samples: seq<real>, c: real)
    ensures Residual(samples, c) == Sum(samples) - Times(|samples|, c)
  {
    if samples != [] { ResidualIsSum(samples[..|samples| - 1], c); }
  }

  /** One update in shifts: the mean moves by `d`, and the new value lies `n` shifts beyond it. */
  lemma UpdateShifts(s: RunningStats, x: real) returns (d: real)
    ensures var s', n := Update(s, x), s.count;
      && s'.count == n + 1 && s'.mean == s.mean + d && x - s'.mean == Times(n, d)
      && s'.m2 == s.m2 + Times(n, Square(d)) + Square(Times(n, d))
  {
    var n, k := s.count, (s.count + 1) as real;
    d := (x - s.mean) / k;
    DivideBack(x - s.mean, k);
    TimesIsProduct(n + 1, d);
    SquareOfShifts(n, d);
  }

  lemma DivideBack(a: real, b: real)
    requires b != 0.0
    ensures b * (a / b) == a
  {
  }

  lemma SquareOfShifts(n: nat, d: real)
    ensures Times(n + 1, d) * Times(n, d) == Times(n, Square(d)) + Square(Times(n, d))
  {
    TimesIsProduct(n, d);
    TimesIsProduct(n, Square(d));
    var t := Times(n, d);
    assert (t + d) * t == d * t + t * t;
    assert d * (n as real * d) == n as real * (d * d);
  }

  lemma {:induction false} StreamedMoments(samples: seq<real>)
    ensures var s := Streamed(samples);
      s.count == |samples| && Residual(samples, s.mean) == 0.0 && s.m2 == Deviations(samples, s.mean)
  {
    if samples != [] {
      var init, x := samples[..|samples| - 1], samples[|samples| - 1];
      StreamedMoments(init);
      var s := Streamed(init);
      var d := UpdateShifts(s, x);
      ShiftResidual(init, s.mean, d);
      ShiftCentre(init, s.mean, d);
      CrossIsResidual(init, s.mean, d);
      assert Double(d, 0.0) == 0.0;
    }
  }

  lemma {:induction false} DeviationsNonNegative(samples: seq<real>, c: real)
    ensures Deviations(samples, c) >= 0.0
  {
    if samples != [] {
      DeviationsNonNegative(samples[..|samples| - 1], c);
      SquareNonNegative(samples[|samples| - 1] - c);
    }
  }

  lemma SquareNonNegative(x: real)
    ensures Square(x) >= 0.0
  {
  }

  /**
   For every sample sequence, count times the streamed mean is the sum of the samples, and the
   streamed second moment is the sum of squared deviations from that final mean, never negative.
   */
  lemma WelfordIsTwoPass(samples: seq<real>)
    ensures var s := Streamed(samples);
      && s.count == |samples| && Times(|samples|, s.mean) == Sum(samples)
      && s.m2 == Deviations(samples, s.mean) && s.m2 >= 0.0
  {
    StreamedMoments(samples);
    MeanTimesCount(samples);
    DeviationsNonNegative(samples, Streamed(samples).mean);
  }

  lemma MeanTimesCount(samples: seq<real>)
    ensures Times(|samples|, Streamed(samples).mean) == Sum(samples)
  {
    StreamedMoments(samples);
    ResidualIsSum(samples, Streamed(samples).mean);
  }

  /** The mean is the arithmetic mean. */
  lemma MeanIsAverage(samples: seq<real>)
    requires samples != []
    ensures Streamed(samples).mean == Sum(samples) / |samples| as real
  {
    MeanTimesCount(samples);
    AverageOf(|samples|, Streamed(samples).mean, Sum(samples));
  }

  lemma AverageOf(n: nat, mean: real, sum: real)
    requires n > 0 && Times(n, mean) == sum
    ensures mean == sum / n as real
  {
    TimesIsProduct(n, mean);
    DivideBack(sum, n as real);
    SameQuotient(mean, sum / n as real, n as real);
  }

  // ---- order does not matter ---------------------------------------------------------------

  lemma {:induction false} SumsTakeOut(samples: seq<real>, i: nat, c: real)
    requires i < |samples|
    ensures Sum(samples) == Sum(Without(samples, i)) + samples[i]
    ensures Deviations(samples, c) == Deviations(Without(samples, i), c) + Square(samples[i] - c)
  {
    var n := |samples| - 1;
    if i == n {
      assert Without(samples, i) == samples[..n];
    } else {
      SumsTakeOut(samples[..n], i, c);
      assert Without(samples, i)[..n - 1] == Without(samples[..n], i);
    }
  }

  lemma MultisetWithout(samples: seq<real>, i: nat)
    requires i < |samples|
    ensures multiset(Without(samples, i)) == multiset(samples) - multiset{samples[i]}
  {
    assert samples == samples[..i] + [samples[i]] + samples[i + 1..];
  }

  lemma {:induction false} SumsIgnoreOrder(a: seq<real>, b: seq<real>, c: real)
    requires multiset(a) == multiset(b)
    ensures |a| == |b| && Sum(a) == Sum(b) && Deviations(a, c) == Deviations(b, c)
    decreases |a|
  {
    assert |a| == |multiset(a)| == |multiset(b)| == |b|;
    if a != [] {
      var n := |a| - 1;
      assert a[n] in multiset(b);
      var i :| 0 <= i < |b| && b[i] == a[n];
      MultisetWithout(a, n);
      MultisetWithout(b, i);
      SumsIgnoreOrder(Without(a, n), Without(b, i), c);
      SumsTakeOut(a, n, c);
      SumsTakeOut(b, i, c);
    }
  }

  /** The same samples in any order give the same statistics. */
  lemma OrderDoesNotMatter(a: seq<real>, b: seq<real>)
    requires multiset(a) == multiset(b)
    ensures Streamed(a) == Streamed(b)
  {
    SumsIgnoreOrder(a, b, Streamed(a).mean);
    WelfordIsTwoPass(a);
    WelfordIsTwoPass(b);
    if a != [] { TimesInjective(|a|, Streamed(a).mean, Streamed(b).mean); }
    assert a == [] ==> b == [];
  }

  lemma TimesInjective(n: nat, x: real, y: real)
    requires n > 0 && Times(n, x) == Times(n, y)
    ensures x == y
  {
    TimesIsProduct(n, x);
    TimesIsProduct(n, y);
    SameQuotient(x, y, n as real);
  }

  lemma SameQuotient(x: real, y: real, n: real)
    requires n > 0.0 && n * x == n * y
    ensures x == y
  {
    assert n * (x - y) == 0.0;
  }

  // ---- how many samples can be outliers ----------------------------------------------------

  function Flagged(samples: seq<real>, s: RunningStats, std: real, threshold: real): nat {
    if samples == [] then 0
    else Flagged(samples[..|samples| - 1], s, std, threshold)
         + if Exceeds(s, std, threshold, samples[|samples| - 1]) then 1 else 0
  }

  lemma FlaggedDeviates(s: RunningStats, std: real, threshold: real, x: real)
    requires threshold >= 0.0 && std >= 0.000_000_000_1 && Exceeds(s, std, threshold, x)
    ensures Square(x - s.mean) >= Weight(threshold, std)
  {
    var z := ZScore(s, std, x);
    DivideBack(x - s.mean, std);
    SquareOfProduct(z, std);
    SquareGrows(threshold, z);
    ProductGrows(Square(threshold), Square(z), Square(std));
  }

  lemma SquareOfProduct(a: real, b: real)
    ensures Square(b * a) == Square(a) * Square(b)
  {
    assert (b * a) * (b * a) == (a * a) * (b * b);
  }

  lemma SquareGrows(t: real, z: real)
    requires 0.0 <= t < Abs(z)
    ensures Square(z) >= Square(t)
  {
    var a := Abs(z);
    assert a * a >= t * a;
    assert t * a >= t * t;
  }

  lemma ProductGrows(a: real, b: real, c: real)
    requires a <= b && c >= 0.0
    ensures a * c <= b * c
  {
  }

  /** Every flagged sample weighs at least one unit in the sum of squared deviations. */
  lemma {:induction false} FlaggedWeigh(samples: seq<real>, s: RunningStats, std: real, threshold: real, unit: real)
    requires forall x :: Exceeds(s, std, threshold, x) ==> Square(x - s.mean) >= unit
    ensures Times(Flagged(samples, s, std, threshold), unit) <= Deviations(samples, s.mean)
  {
    if samples != [] {
      var init, x := samples[..|samples| - 1], samples[|samples| - 1];
      FlaggedWeigh(init, s, std, threshold, unit);
      SquareNonNegative(x - s.mean);
    }
  }

  lemma {:induction false} NoneFlaggedWhenFlat(samples: seq<real>, s: RunningStats, std: real, threshold: real)
    requires threshold >= 0.0 && std < 0.000_000_000_1
    ensures Flagged(samples, s, std, threshold) == 0
  {
    if samples != [] { NoneFlaggedWhenFlat(samples[..|samples| - 1], s, std, threshold); }
  }

  lemma Cancel(a: real, b: real, v: real)
    requires a * v <= b * v && v > 0.0
    ensures a <= b
  {
    assert (b - a) * v >= 0.0;
  }

  /** The least a flagged sample adds to the sum of squared deviations. */
  function Weight(threshold: real, std: real): real { Square(threshold) * Square(std) }

  /** Of samples weighing `t^2 * s^2` each, `m2 = n * s^2` allows `k` with k * t^2 <= n. */
  lemma CountFits(k: nat, threshold: real, n: real, s: real, m2: real)
    requires s > 0.0 && n > 0.0 && Times(k, Weight(threshold, s)) <= m2 && Square(s) == m2 / n
    ensures k as real * Square(threshold) <= n
  {
    var t := Square(threshold);
    TimesIsProduct(k, Weight(threshold, s));
    Divided(m2, n, Square(s));
    Regroup(k as real, t, n, s);
    Cancel(k as real * t * s, n * s, s);
    Cancel(k as real * t, n, s);
  }

  lemma Regroup(k: real, t: real, n: real, s: real)
    ensures k * (t * Square(s)) == ((k * t) * s) * s && n * Square(s) == (n * s) * s
  {
  }

  /** k * t^2 <= n */
  predicate WithinBound(k: nat, threshold: real, n: int) { k as real * Square(threshold) <= n as real }

  /** With a threshold of zero or more, at least two samples meet the bound whatever they are. */
  lemma FewBaselineOutliers(samples: seq<real>, std: real, threshold: real)
    requires |samples| >= 2 && threshold >= 0.0 && IsRoot(std, Variance(Streamed(samples)))
    ensures WithinBound(Flagged(samples, Streamed(samples), std, threshold), threshold, |samples| - 1)
  {
    if std < 0.000_000_000_1 {
      NoneFlaggedWhenFlat(samples, Streamed(samples), std, threshold);
    } else {
      FewOutliersWhenSpread(samples, Streamed(samples), std, threshold);
    }
  }

  lemma FewOutliersWhenSpread(samples: seq<real>, s: RunningStats, std: real, threshold: real)
    requires |samples| >= 2 && threshold >= 0.0 && std >= 0.000_000_000_1
    requires s == Streamed(samples) && IsRoot(std, Variance(s))
    ensures WithinBound(Flagged(samples, s, std, threshold), threshold, |samples| - 1)
  {
    FlaggedWeighAll(samples, s, std, threshold);
    WelfordIsTwoPass(samples);
    CountFitsVariance(Flagged(samples, s, std, threshold), threshold, s, std);
  }

  lemma CountFitsVariance(k: nat, threshold: real, s: RunningStats, std: real)
    requires s.count >= 2 && std > 0.0 && IsRoot(std, Variance(s)) && Times(k, Weight(threshold, std)) <= s.m2
    ensures WithinBound(k, threshold, s.count - 1)
  {
    CountFits(k, threshold, (s.count - 1) as real, std, s.m2);
  }

  lemma FlaggedWeighAll(samples: seq<real>, s: RunningStats, std: real, threshold: real)
    requires threshold >= 0.0 && std >= 0.000_000_000_1
    ensures Times(Flagged(samples, s, std, threshold), Weight(threshold, std)) <= Deviations(samples, s.mean)
  {
    forall x | Exceeds(s, std, threshold, x) ensures Square(x - s.mean) >= Weight(threshold, std) {
      FlaggedDeviates(s, std, threshold, x);
    }
    FlaggedWeigh(samples, s, std, threshold, Weight(threshold, std));
  }

  lemma Divided(a: real, b: real, c: real)
    requires b != 0.0 && c == a / b
    ensures a == b * c
  {
  }

  /** Every value lies beyond a negative threshold. */
  lemma {:induction false} NegativeThresholdFlagsAll(samples: seq<real>, s: RunningStats, std: real, threshold: real)
    requires threshold < 0.0
    ensures Flagged(samples, s, std, threshold) == |samples|
  {
    if samples != [] { NegativeThresholdFlagsAll(samples[..|samples| - 1], s, std, threshold); }
  }

  /** A single sample is its own mean, so only a negative threshold flags it. */
  lemma LoneSampleIsMean(x: real, std: real, threshold: real)
    requires threshold >= 0.0
    ensures Flagged([x], Streamed([x]), std, threshold) == 0
  {
    var samples := [x];
    assert samples[..0] == [];
    assert Streamed(samples) == Update(NEW_STATS, x);
    assert Flagged([], Streamed(samples), std, threshold) == 0;
  }

  /**
   The number `k` of its own baseline samples that a feature would flag at a threshold `t` satisfies
   k * t^2 <= n - 1 exactly when there is a sample, and the threshold is not negative or so small
   that all n of them fit the bound.
   */
  lemma FewBaselineOutliersIff(samples: seq<real>, std: real, threshold: real)
    requires IsRoot(std, Variance(Streamed(samples)))
    ensures WithinBound(Flagged(samples, Streamed(samples), std, threshold), threshold, |samples| - 1)
      <==> samples != [] && (threshold >= 0.0 || WithinBound(|samples|, threshold, |samples| - 1))
  {
    if threshold < 0.0 {
      NegativeThresholdFlagsAll(samples, Streamed(samples), std, threshold);
    } else if |samples| >= 2 {
      FewBaselineOutliers(samples, std, threshold);
    } else if |samples| == 1 {
      assert samples == [samples[0]];
      LoneSampleIsMean(samples[0], std, threshold);
    }
    if samples == [] {
      assert WithinBound(0, threshold, -1) == (0.0 * Square(threshold) <= -1.0);
    }
  }

  // ---- what a report means -----------------------------------------------------------------

  function Average(samples: seq<real>): real { if samples == [] then 0.0 else Sum(samples) / |samples| as real }

  /** The sample variance, by its two-pass definition; one below two samples. */
  function SampleVariance(samples: seq<real>): real {
    if |samples| < 2 then 1.0 else Deviations(samples, Average(samples)) / (|samples| - 1) as real
  }

  /** The square root given is one, and not so small that the feature counts as flat. */
  ghost predicate RootIsUsable(samples: seq<real>, sqrt: real -> real) {
    IsRoot(sqrt(SampleVariance(samples)), SampleVariance(samples)) && sqrt(SampleVariance(samples)) >= 0.000_000_000_1
  }

  /** The value is further from the average than the threshold times the standard deviation, in squares. */
  ghost predicate StandsOut(samples: seq<real>, threshold: real, value: real) {
    threshold < 0.0 || Square(value - Average(samples)) > Scaled(threshold, SampleVariance(samples))
  }

  function Scaled(threshold: real, variance: real): real { Square(threshold) * variance }

  /** The report carries the value, the average, the root used, and their z-score. */
  ghost predicate Tells(r: AnomalousFeature, samples: seq<real>, sqrt: real -> real, value: real) {
    && r.value == value && r.mean == Average(samples) && r.stdDev == sqrt(SampleVariance(samples))
    && (r.stdDev >= 0.000_000_000_1 ==>
          r.stdDev * r.zScore == if value < r.mean then r.mean - value else value - r.mean)
    && (r.stdDev < 0.000_000_000_1 ==> r.zScore == 0.0)
  }

  lemma StreamedTells(samples: seq<real>)
    ensures var s := Streamed(samples); s.mean == Average(samples) && Variance(s) == SampleVariance(samples)
  {
    WelfordIsTwoPass(samples);
    if samples != [] { MeanIsAverage(samples); }
  }

  lemma ReportTells(samples: seq<real>, i: nat, sqrt: real -> real, value: real)
    ensures Tells(Report(i, Streamed(samples), sqrt, value), samples, sqrt, value)
  {
    StreamedTells(samples);
    var s := Streamed(samples);
    var std := sqrt(Variance(s));
    if std >= 0.000_000_000_1 {
      DivideBack(value - s.mean, std);
      AbsTimes(std, ZScore(s, std, value));
    }
  }

  lemma AbsTimes(b: real, x: real)
    requires b > 0.0
    ensures b * Abs(x) == Abs(b * x)
  {
    if x < 0.0 { Negated(b, x); ProductPositive(b, -x); } else { ProductNonNegative(b, x); }
  }

  lemma Negated(b: real, x: real)
    ensures b * -x == -(b * x)
  {
  }

  lemma ProductPositive(a: real, b: real)
    requires a > 0.0 && b > 0.0
    ensures a * b > 0.0
  {
  }

  lemma ProductNonNegative(a: real, b: real)
    requires a > 0.0 && b >= 0.0
    ensures a * b >= 0.0
  {
  }

  /** z beyond t is std * z beyond std * t, in squares. */
  lemma BeyondInSquares(z: real, std: real, t: real)
    requires std > 0.0 && t >= 0.0 && z >= 0.0
    ensures z > t <==> Square(std * z) > Scaled(t, Square(std))
  {
    SquareOfProduct(z, std);
    SquarePositive(std);
    if z > t {
      SquareIncreases(t, z);
      ProductIncreases(Square(t), Square(z), Square(std));
    } else {
      SquareGrowsWeakly(z, t);
      ProductGrows(Square(z), Square(t), Square(std));
    }
  }

  function Product(x: real, y: real): real { x * y }

  lemma ProductIsPositive(a: real, b: real)
    requires a > 0.0 && b > 0.0
    ensures Product(a, b) > 0.0
  {
    ProductPositive(a, b);
  }

  lemma SquarePositive(a: real)
    requires a > 0.0
    ensures Square(a) > 0.0
  {
    ProductIsPositive(a, a);
    assert Square(a) == Product(a, a);
  }

  lemma SquareIncreases(a: real, b: real)
    requires 0.0 <= a < b
    ensures Square(a) < Square(b)
  {
    assert b * b - a * a == (b - a) * (b + a);
    ProductPositive(b - a, b + a);
  }

  lemma SquareGrowsWeakly(a: real, b: real)
    requires 0.0 <= a <= b
    ensures Square(a) <= Square(b)
  {
    if a < b { SquareIncreases(a, b); }
  }

  lemma ProductIncreases(a: real, b: real, c: real)
    requires a < b && c > 0.0
    ensures a * c < b * c
  {
    ProductPositive(b - a, c);
    assert b * c - a * c == (b - a) * c;
  }

  /** A feature is reported exactly when its value stands out from its samples. */
  lemma ReportStandsOut(samples: seq<real>, i: nat, sqrt: real -> real, threshold: real, value: real)
    requires RootIsUsable(samples, sqrt)
    ensures Report(i, Streamed(samples), sqrt, value).zScore > threshold <==> StandsOut(samples, threshold, value)
  {
    var r := Report(i, Streamed(samples), sqrt, value);
    ReportTells(samples, i, sqrt, value);
    ScoreNonNegative(samples, i, sqrt, value);
    if threshold >= 0.0 { BeyondMean(value - r.mean, r.zScore, r.stdDev, threshold, SampleVariance(samples)); }
  }

  lemma ScoreNonNegative(samples: seq<real>, i: nat, sqrt: real -> real, value: real)
    ensures Report(i, Streamed(samples), sqrt, value).zScore >= 0.0
  {
  }

  lemma BeyondMean(d: real, z: real, std: real, t: real, variance: real)
    requires std > 0.0 && t >= 0.0 && z >= 0.0 && std * z == Abs(d) && Square(std) == variance
    ensures z > t <==> Square(d) > Scaled(t, variance)
  {
    BeyondInSquares(z, std, t);
    SquareOfAbs(d);
  }

  lemma SquareOfAbs(x: real)
    ensures Square(Abs(x)) == Square(x)
  {
  }

  lemma ReportsStandOut(history: seq<seq<real>>, stats: seq<RunningStats>, sqrt: real -> real, threshold: real,
                        values: seq<real>, anomalous: seq<AnomalousFeature>)
    requires |stats| == |values| && forall h | h in history :: |h| == |values|
    requires forall i | 0 <= i < |stats| :: stats[i] == Streamed(Column(history, i))
    requires SelectsBeyond(anomalous, AllReports(stats, sqrt, values), threshold)
    ensures forall r | r in anomalous :: r.index < |values| && Tells(r, Column(history, r.index), sqrt, values[r.index])
    ensures forall i: nat | i < |values| && RootIsUsable(Column(history, i), sqrt) ::
      (exists r :: r in anomalous && r.index == i) <==> StandsOut(Column(history, i), threshold, values[i])
  {
    var all := AllReports(stats, sqrt, values);
    forall r | r in anomalous ensures r.index < |values| && Tells(r, Column(history, r.index), sqrt, values[r.index]) {
      var i :| 0 <= i < |all| && all[i] == r;
      ReportTells(Column(history, i), i, sqrt, values[i]);
    }
    forall i: nat | i < |values| && RootIsUsable(Column(history, i), sqrt)
      ensures (exists r :: r in anomalous && r.index == i) <==> StandsOut(Column(history, i), threshold, values[i])
    {
      ReportStandsOut(Column(history, i), i, sqrt, threshold, values[i]);
      assert all[i] in all;
    }
  }

  /** The score is the greatest deviation over twice the threshold, capped at one; one at a threshold of zero. */
  lemma ScoreLaw(z: real, threshold: real)
    requires z >= 0.0
    ensures Normalised(z, threshold) <= 1.0 && (threshold == 0.0 ==> Normalised(z, threshold) == 1.0)
    ensures threshold > 0.0 && z <= threshold * 2.0 ==> Product(threshold * 2.0, Normalised(z, threshold)) == z
    ensures threshold > 0.0 && z >= threshold * 2.0 ==> Normalised(z, threshold) == 1.0
    ensures threshold < 0.0 ==> Product(threshold * 2.0, Normalised(z, threshold)) == z
  {
    var y := threshold * 2.0;
    if threshold != 0.0 { QuotientLaw(z, y); }
  }

  lemma QuotientLaw(x: real, y: real)
    requires y != 0.0 && x >= 0.0
    ensures Product(y, x / y) == x
    ensures y > 0.0 ==> (x / y <= 1.0 <==> x <= y) && (x == y ==> x / y == 1.0)
    ensures y < 0.0 ==> x / y <= 0.0
  {
    DivideBack(x, y);
    var q := x / y;
    assert q * y == y * q == x;
    if y > 0.0 {
      if q <= 1.0 { ProductGrows(q, 1.0, y); } else { ProductIncreases(1.0, q, y); }
      if x == y { SameQuotient(q, 1.0, y); }
    }
  }
}
