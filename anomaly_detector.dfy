/** The anomaly detector: the isolation-style per-feature scoring against
    fixed baselines, the reconstruction error of one feature, the combined
    score and its alert bands, the rainfall-surge rule, and the detector's
    rolling window of combined scores with its trend rule. The autoencoder's
    pattern matching (cosine similarity) enters as a given outcome. */
module AnomalyDetection {
  import opened Text

  // ---------------------------------------------------------------------
  // Isolation-style scoring
  // ---------------------------------------------------------------------

  datatype Baseline = Baseline(mean: real, std: real, maxNormal: real)

  const Baselines: map<string, Baseline> := map[
    "rainfall_hourly" := Baseline(2.5, 5.0, 25.0),
    "discharge" := Baseline(150.0, 80.0, 500.0),
    "water_level" := Baseline(2.0, 0.8, 5.0),
    "humidity" := Baseline(65.0, 15.0, 95.0),
    "pressure_change" := Baseline(0.0, 3.0, 10.0)]

  lemma BaselineSpreadsPositive()
    ensures forall name :: name in Baselines ==> Baselines[name].std > 0.0
  {
  }

  /** A reading is one value or a time series. */
  datatype Reading = Single(value: real) | Series(values: seq<real>)

  /** Distance from the baseline mean in (smoothed) standard deviations. */
  function ZScore(x: real, b: Baseline): (z: real)
    requires b.std >= 0.0
    ensures z >= 0.0
  {
    AbsReal(x - b.mean) / (b.std + 0.001)
  }

  /** The score of one feature, or None when it is skipped (no baseline, or
      an empty series). A series is judged on its last six values. */
  function FeatureScore(name: string, r: Reading): (s: Option<real>)
    ensures s.None? <==> name !in Baselines || (r.Series? && r.values == [])
    ensures s.Some? ==> 0.0 <= s.value <= 1.0
  {
    if name !in Baselines then None
    else
      var b := Baselines[name];
      BaselineSpreadsPositive();
      match r
      case Single(v) => Some(MinReal(1.0, ZScore(v, b) / 4.0))
      case Series(vs) =>
        if vs == [] then None
        else
          var recent := Last(vs, 6);
          var mean := Sum(recent) / |recent| as real;
          Some(MinReal(1.0, (ZScore(MaxOf(recent), b) * 0.6 + ZScore(mean, b) * 0.4) / 4.0))
  }

  /** A single value farther from the baseline mean never scores lower. */
  lemma SingleScoreMonotone(name: string, v1: real, v2: real)
    requires name in Baselines
    requires AbsReal(v1 - Baselines[name].mean) <= AbsReal(v2 - Baselines[name].mean)
    ensures FeatureScore(name, Single(v1)).value <= FeatureScore(name, Single(v2)).value
  {
    var b := Baselines[name];
    BaselineSpreadsPositive();
    DivMonotone(AbsReal(v1 - b.mean), AbsReal(v2 - b.mean), b.std + 0.001);
    DivMonotone(ZScore(v1, b), ZScore(v2, b), 4.0);
  }

  /** A single value scores the full 1.0 exactly when it lies at least four
      (smoothed) standard deviations from the baseline mean. */
  lemma SingleScoreSaturates(name: string, v: real)
    requires name in Baselines
    ensures Baselines[name].std > 0.0
    ensures FeatureScore(name, Single(v)).value == 1.0 <==> ZScore(v, Baselines[name]) >= 4.0
  {
    BaselineSpreadsPositive();
  }

  /** A value at the baseline mean scores 0. */
  lemma AtMeanScoresZero(name: string)
    requires name in Baselines
    ensures FeatureScore(name, Single(Baselines[name].mean)) == Some(0.0)
  {
    BaselineSpreadsPositive();
  }

  /** A series is judged on its last six values: older values change nothing. */
  lemma SeriesLastSix(name: string, older: seq<real>, recent: seq<real>)
    requires |recent| >= 6
    ensures FeatureScore(name, Series(older + recent)) == FeatureScore(name, Series(recent))
  {
    assert Last(older + recent, 6) == Last(recent, 6);
  }

  /** A constant series scores like its single value, since its maximum and
      its mean are that value and the weights 0.6 and 0.4 sum to 1. */
  lemma ConstantSeriesIsSingle(name: string, v: real, vs: seq<real>)
    requires vs != []
    requires forall i :: 0 <= i < |vs| ==> vs[i] == v
    ensures FeatureScore(name, Series(vs)) == FeatureScore(name, Single(v))
  {
    if name in Baselines {
      var recent := Last(vs, 6);
      assert forall i :: 0 <= i < |recent| ==> recent[i] == vs[|vs| - |recent| + i];
      ConstantStats(recent, v);
      var z := ZScore(v, Baselines[name]);
      assert z * 0.6 + z * 0.4 == z;
    }
  }

  lemma ConstantStats(xs: seq<real>, v: real)
    requires xs != []
    requires forall i :: 0 <= i < |xs| ==> xs[i] == v
    ensures MaxOf(xs) == v && Sum(xs) / |xs| as real == v
  {
    ConstantMax(xs, v);
    ConstantMean(xs, v);
  }

  lemma ConstantMax(xs: seq<real>, v: real)
    requires xs != []
    requires forall i :: 0 <= i < |xs| ==> xs[i] == v
    ensures MaxOf(xs) == v
  {
    var m := MaxOf(xs);
    var i :| 0 <= i < |xs| && xs[i] == m;
  }

  lemma ConstantMean(xs: seq<real>, v: real)
    requires xs != []
    requires forall i :: 0 <= i < |xs| ==> xs[i] == v
    ensures Sum(xs) / |xs| as real == v
  {
    SumConstant(xs, v);
    DivideProduct(v, |xs| as real);
  }

  /** The scored features, in input order. */
  function Scored(data: seq<(string, Reading)>): seq<(string, real)>
    decreases |data|
  {
    if data == [] then []
    else
      var last := data[|data| - 1];
      var s := FeatureScore(last.0, last.1);
      Scored(data[..|data| - 1]) + (if s.Some? then [(last.0, s.value)] else [])
  }

  datatype AnomalySeverity = Medium | High

  /** A reported anomaly: its score as reported (three places) and the
      severity decided on the unrounded score. */
  datatype FeatureAnomaly = FeatureAnomaly(feature: string, score: real, severity: AnomalySeverity)

  function SeverityOf(score: real): AnomalySeverity {
    if score > 0.8 then High else Medium
  }

  /** The features reported as anomalous: those whose unrounded score is
      above 0.6. */
  function Flagged(scores: seq<(string, real)>): seq<FeatureAnomaly>
    decreases |scores|
  {
    if scores == [] then []
    else
      var last := scores[|scores| - 1];
      Flagged(scores[..|scores| - 1])
      + (if last.1 > 0.6 then [FeatureAnomaly(last.0, Round(last.1, 3), SeverityOf(last.1))] else [])
  }

  /** The per-feature scores as stored: rounded to three places. */
  function Reported(scores: seq<(string, real)>): seq<(string, real)> {
    seq(|scores|, i requires 0 <= i < |scores| => (scores[i].0, Round(scores[i].1, 3)))
  }

  function Values(scores: seq<(string, real)>): seq<real> {
    seq(|scores|, i requires 0 <= i < |scores| => scores[i].1)
  }

  /** The mean of the stored scores, 0.0 when there are none. */
  function MeanScore(scores: seq<(string, real)>): real {
    if scores == [] then 0.0 else Sum(Values(scores)) / |scores| as real
  }

  /** `overall` and `confidence` are the reported (rounded) values;
      `isAnomalous` compares the unrounded mean. */
  datatype IsolationResult = IsolationResult(featureScores: seq<(string, real)>,
                                             anomalies: seq<FeatureAnomaly>,
                                             overall: real, isAnomalous: bool, confidence: real)

  /** The result of the isolation detector on the readings, in their order:
      the overall score is the mean of the three-place scores. */
  function Isolation(data: seq<(string, Reading)>): IsolationResult {
    IsolationOf(Reported(Scored(data)), Flagged(Scored(data)))
  }

  /** The result for the stored scores and the flagged anomalies. */
  function IsolationOf(stored: seq<(string, real)>, anomalies: seq<FeatureAnomaly>): IsolationResult {
    IsolationResult(stored, anomalies, Round(MeanScore(stored), 3), MeanScore(stored) > 0.5,
                    Round(0.8 - MeanScore(stored) * 0.2, 2))
  }

  /** Scored features have a baseline and a score in [0, 1]. */
  lemma {:induction false} ScoredInRange(data: seq<(string, Reading)>)
    ensures |Scored(data)| <= |data|
    ensures forall i :: 0 <= i < |Scored(data)| ==>
              Scored(data)[i].0 in Baselines && 0.0 <= Scored(data)[i].1 <= 1.0
    decreases |data|
  {
    if data != [] {
      ScoredInRange(data[..|data| - 1]);
    }
  }

  /** A score in [0, 1] stays in [0, 1] once rounded. */
  lemma RoundInUnit(x: real, places: nat)
    requires 0.0 <= x <= 1.0
    ensures 0.0 <= Round(x, places) <= 1.0
  {
    RoundMonotone(0.0, x, places);
    RoundMonotone(x, 1.0, places);
    RoundExact(0, places);
    RoundExact(Pow10(places), places);
  }

  /** Exactly the features scoring above 0.6 are flagged, with their score
      rounded to three places and "high" above 0.8. */
  lemma {:induction false} FlaggedExactly(scores: seq<(string, real)>, a: FeatureAnomaly)
    ensures a in Flagged(scores) <==>
              exists i :: 0 <= i < |scores| && scores[i].0 == a.feature && scores[i].1 > 0.6
                          && a.score == Round(scores[i].1, 3) && a.severity == SeverityOf(scores[i].1)
    decreases |scores|
  {
    if scores != [] {
      var init := scores[..|scores| - 1];
      var last := scores[|scores| - 1];
      FlaggedExactly(init, a);
      assert forall i :: 0 <= i < |init| ==> init[i] == scores[i];
      assert a in Flagged(scores) <==>
               a in Flagged(init) || (last.1 > 0.6 && a == FeatureAnomaly(last.0, Round(last.1, 3), SeverityOf(last.1)));
    }
  }

  /** The overall score is in [0, 1], 0 without scored features, and the
      reported confidence lies in [0.6, 0.8]. The anomaly flag is decided
      before the overall score is rounded, so it agrees with the reported
      score except at 0.5 itself. */
  lemma IsolationBounds(data: seq<(string, Reading)>)
    ensures var r := Isolation(data);
            && 0.0 <= r.overall <= 1.0
            && (r.featureScores == [] ==> r.overall == 0.0)
            && 0.6 <= r.confidence <= 0.8
            && (r.overall > 0.5 ==> r.isAnomalous)
            && (r.isAnomalous ==> r.overall >= 0.5)
  {
    StoredInUnit(data);
    IsolationOfBounds(Reported(Scored(data)), Flagged(Scored(data)));
  }

  /** The same bounds for any stored scores in [0, 1]. */
  lemma IsolationOfBounds(stored: seq<(string, real)>, anomalies: seq<FeatureAnomaly>)
    requires forall i :: 0 <= i < |stored| ==> 0.0 <= Values(stored)[i] <= 1.0
    ensures var r := IsolationOf(stored, anomalies);
            && 0.0 <= r.overall <= 1.0
            && (r.featureScores == [] ==> r.overall == 0.0)
            && 0.6 <= r.confidence <= 0.8
            && (r.overall > 0.5 ==> r.isAnomalous)
            && (r.isAnomalous ==> r.overall >= 0.5)
  {
    var mean := MeanScore(stored);
    if stored != [] {
      MeanInUnit(Values(stored));
    } else {
      RoundExact(0, 3);
    }
    RoundInUnit(mean, 3);
    ConfidenceRange(mean);
    FlagAgainstRounded(mean);
  }

  lemma StoredInUnit(data: seq<(string, Reading)>)
    ensures forall i :: 0 <= i < |Scored(data)| ==> 0.0 <= Values(Reported(Scored(data)))[i] <= 1.0
  {
    var raw := Scored(data);
    ScoredInRange(data);
    forall i | 0 <= i < |raw|
      ensures 0.0 <= Values(Reported(raw))[i] <= 1.0
    {
      RoundInUnit(raw[i].1, 3);
    }
  }

  /** `round(0.8 - m * 0.2, 2)` for a mean m in [0, 1] is in [0.6, 0.8]. */
  lemma ConfidenceRange(mean: real)
    requires 0.0 <= mean <= 1.0
    ensures 0.6 <= Round(0.8 - mean * 0.2, 2) <= 0.8
  {
    RoundMonotone(0.6, 0.8 - mean * 0.2, 2);
    RoundMonotone(0.8 - mean * 0.2, 0.8, 2);
    RoundExact(60, 2);
    RoundExact(80, 2);
  }

  /** A mean above 0.5 rounds to at least 0.5, and one rounding above 0.5
      is above 0.5. */
  lemma FlagAgainstRounded(mean: real)
    ensures Round(mean, 3) > 0.5 ==> mean > 0.5
    ensures mean > 0.5 ==> Round(mean, 3) >= 0.5
  {
    RoundExact(500, 3);
    if mean > 0.5 {
      RoundMonotone(0.5, mean, 3);
    } else {
      RoundMonotone(mean, 0.5, 3);
    }
  }

  /** The anomaly flag reads the mean of the rounded scores: a lone hourly
      rainfall of 12.51 mm scores 0.5004, which is stored as 0.5, so the
      readings are not anomalous. */
  lemma StoredScoresDecideTheFlag()
    ensures var r := Isolation([("rainfall_hourly", Single(12.51))]);
            && FeatureScore("rainfall_hourly", Single(12.51)).value > 0.5
            && r.overall == 0.5 && !r.isAnomalous
  {
    LoneRainfallScore();
    LoneRainfallScored();
    LoneRainfallStored();
    var stored := [("rainfall_hourly", 0.5)];
    assert Reported([("rainfall_hourly", 10.01 / 5.001 / 4.0)]) == stored;
    HalfMeanNotAnomalous(Flagged(Scored([("rainfall_hourly", Single(12.51))])));
  }

  lemma LoneRainfallScored()
    ensures Scored([("rainfall_hourly", Single(12.51))]) == [("rainfall_hourly", 10.01 / 5.001 / 4.0)]
  {
    var data := [("rainfall_hourly", Single(12.51))];
    LoneRainfallScore();
    assert data[..0] == [];
  }

  /** One stored score of 0.5 is an overall 0.5, not anomalous. */
  lemma HalfMeanNotAnomalous(anomalies: seq<FeatureAnomaly>)
    ensures var r := IsolationOf([("rainfall_hourly", 0.5)], anomalies);
            r.overall == 0.5 && !r.isAnomalous
  {
    assert MeanScore([("rainfall_hourly", 0.5)]) == 0.5 by {
      assert Values([("rainfall_hourly", 0.5)]) == [0.5];
      assert [0.5][..0] == [];
    }
    RoundExact(500, 3);
  }

  /** A lone hourly rainfall of 12.51 mm is 2.0016 deviations over the
      mean: a score of 10.01 / 5.001 / 4, just above 0.5. */
  lemma LoneRainfallScore()
    ensures FeatureScore("rainfall_hourly", Single(12.51)) == Some(10.01 / 5.001 / 4.0)
    ensures 10.01 / 5.001 / 4.0 > 0.5
  {
    assert Baselines["rainfall_hourly"] == Baseline(2.5, 5.0, 25.0);
  }

  /** That score is stored, to three places, as 0.5. */
  lemma LoneRainfallStored()
    ensures Round(10.01 / 5.001 / 4.0, 3) == 0.5
  {
    var raw := 10.01 / 5.001 / 4.0;
    assert 500.0 <= raw * 1000.0 < 500.4;
    assert UnitsOf(raw, 1000.0) == 500;
  }

  lemma ScoredStep(data: seq<(string, Reading)>, i: nat)
    requires i < |data|
    ensures var s := FeatureScore(data[i].0, data[i].1);
            Scored(data[..i + 1]) == Scored(data[..i]) + (if s.Some? then [(data[i].0, s.value)] else [])
  {
    assert data[..i + 1][..i] == data[..i];
  }

  lemma ReportedAppend(scores: seq<(string, real)>, p: (string, real))
    ensures Reported(scores + [p]) == Reported(scores) + [(p.0, Round(p.1, 3))]
  {
  }

  lemma FlaggedAppend(scores: seq<(string, real)>, p: (string, real))
    ensures Flagged(scores + [p])
         == Flagged(scores) + (if p.1 > 0.6 then [FeatureAnomaly(p.0, Round(p.1, 3), SeverityOf(p.1))] else [])
  {
    assert (scores + [p])[..|scores|] == scores;
  }

  /** The isolation detector: one pass over the readings. */
  method IsolationDetect(data: seq<(string, Reading)>) returns (r: IsolationResult)
    ensures r == Isolation(data)
  {
    ghost var raw: seq<(string, real)> := [];
    var stored: seq<(string, real)> := [];
    var anomalies: seq<FeatureAnomaly> := [];
    var i := 0;
    while i < |data|
      invariant 0 <= i <= |data|
      invariant raw == Scored(data[..i])
      invariant stored == Reported(raw)
      invariant anomalies == Flagged(raw)
    {
      ScoredStep(data, i);
      var (name, reading) := data[i];
      var s := FeatureScore(name, reading);
      if s.Some? {
        ReportedAppend(raw, (name, s.value));
        FlaggedAppend(raw, (name, s.value));
        raw := raw + [(name, s.value)];
        stored := stored + [(name, Round(s.value, 3))];
        if s.value > 0.6 {
          anomalies := anomalies + [FeatureAnomaly(name, Round(s.value, 3), SeverityOf(s.value))];
        }
      }
      i := i + 1;
    }
    assert data[..i] == data;
    r := IsolationOf(stored, anomalies);
  }

  // ---------------------------------------------------------------------
  // Reconstruction error of one feature
  // ---------------------------------------------------------------------

  function SquaredDiffs(a: seq<real>, b: seq<real>): seq<real>
    requires |a| == |b|
  {
    seq(|a|, i requires 0 <= i < |a| => (a[i] - b[i]) * (a[i] - b[i]))
  }

  /** Mean squared error over the common prefix, capped at 1.0; 0.5 when
      there is nothing to compare. */
  function FeatureReconstructionError(input: seq<real>, pattern: seq<real>): (e: real)
    ensures e <= 1.0
    ensures (|input| == 0 || |pattern| == 0) ==> e == 0.5
  {
    var n := Min(|input|, |pattern|);
    var a := input[..n];
    var b := pattern[..n];
    if n == 0 then 0.5 else MinReal(1.0, Sum(SquaredDiffs(a, b)) / n as real)
  }

  /** The error is never negative, ignores the longer vector's tail, and does
      not depend on which vector is the input. */
  lemma ReconstructionErrorProperties(input: seq<real>, pattern: seq<real>)
    ensures FeatureReconstructionError(input, pattern) >= 0.0
    ensures FeatureReconstructionError(input, pattern) == FeatureReconstructionError(pattern, input)
    ensures var n := Min(|input|, |pattern|);
            FeatureReconstructionError(input, pattern) == FeatureReconstructionError(input[..n], pattern[..n])
  {
    var n := Min(|input|, |pattern|);
    if n > 0 {
      SquaredDiffsSymmetric(input[..n], pattern[..n]);
      SquaredDiffsNonNegative(input[..n], pattern[..n]);
      SumNonNegative(SquaredDiffs(input[..n], pattern[..n]));
      assert input[..n][..n] == input[..n] && pattern[..n][..n] == pattern[..n];
    }
  }

  /** The error is zero exactly when the common prefixes agree and are not
      empty. */
  lemma {:induction false} ReconstructionErrorZero(input: seq<real>, pattern: seq<real>)
    ensures var n := Min(|input|, |pattern|);
            FeatureReconstructionError(input, pattern) == 0.0 <==>
              n > 0 && input[..n] == pattern[..n]
  {
    var n := Min(|input|, |pattern|);
    if n > 0 {
      var a := input[..n];
      var b := pattern[..n];
      var d := SquaredDiffs(a, b);
      SquaredDiffsNonNegative(a, b);
      SumZeroIffAllZero(d);
      MeanZeroIffSumZero(Sum(d), n as real);
      forall i | 0 <= i < n ensures d[i] == 0.0 <==> a[i] == b[i] {
        SquaredDiffZero(a, b, i);
      }
      assert (forall i :: 0 <= i < n ==> d[i] == 0.0) <==> a == b;
    }
  }

  /** One coordinate whose squared difference reaches the length of the
      common prefix saturates the error at 1.0. */
  lemma {:induction false} ReconstructionErrorSaturates(input: seq<real>, pattern: seq<real>, i: int)
    requires 0 <= i < Min(|input|, |pattern|)
    requires (input[i] - pattern[i]) * (input[i] - pattern[i]) >= Min(|input|, |pattern|) as real
    ensures FeatureReconstructionError(input, pattern) == 1.0
  {
    var n := Min(|input|, |pattern|);
    var d := SquaredDiffs(input[..n], pattern[..n]);
    SquaredDiffsNonNegative(input[..n], pattern[..n]);
    TermAtMostSum(d, i);
    AtLeastOneOver(Sum(d), n as real);
  }

  lemma SquaredDiffZero(a: seq<real>, b: seq<real>, i: int)
    requires |a| == |b| && 0 <= i < |a|
    ensures SquaredDiffs(a, b)[i] == 0.0 <==> a[i] == b[i]
  {
    var x := a[i] - b[i];
    var d := SquaredDiffs(a, b)[i];
    assert d == x * x;
    if x != 0.0 {
      DivideProduct(x, x);
    }
  }

  lemma MeanZeroIffSumZero(t: real, n: real)
    requires n > 0.0
    ensures MinReal(1.0, t / n) == 0.0 <==> t == 0.0
  {
    DivCancel(t, n);
  }

  lemma AtLeastOneOver(t: real, n: real)
    requires n > 0.0 && t >= n
    ensures MinReal(1.0, t / n) == 1.0
  {
    DivMonotone(n, t, n);
  }

  lemma SquaredDiffsSymmetric(a: seq<real>, b: seq<real>)
    requires |a| == |b|
    ensures SquaredDiffs(a, b) == SquaredDiffs(b, a)
  {
    var d := SquaredDiffs(a, b);
    var d' := SquaredDiffs(b, a);
    forall i | 0 <= i < |a| ensures d[i] == d'[i] {
      assert (a[i] - b[i]) * (a[i] - b[i]) == (b[i] - a[i]) * (b[i] - a[i]);
    }
  }

  lemma SquaredDiffsNonNegative(a: seq<real>, b: seq<real>)
    requires |a| == |b|
    ensures forall i :: 0 <= i < |a| ==> SquaredDiffs(a, b)[i] >= 0.0
  {
    forall i | 0 <= i < |a| ensures SquaredDiffs(a, b)[i] >= 0.0 {
      var x := a[i] - b[i];
      assert SquaredDiffs(a, b)[i] == x * x;
    }
  }

  // ---------------------------------------------------------------------
  // Combined score, alert level, surge rule
  // ---------------------------------------------------------------------

  /** The isolation score alone, or its even average with the reconstruction
      error when a time series was analysed (both as reported, rounded to
      three places). */
  function CombinedScore(isolation: real, reconstruction: Option<real>): (c: real)
    ensures reconstruction.None? ==> c == isolation
    ensures reconstruction.Some? ==> 2.0 * c == isolation + reconstruction.value
    ensures reconstruction.Some? ==>
              MinReal(isolation, reconstruction.value) <= c <= MaxReal(isolation, reconstruction.value)
  {
    if reconstruction.Some? then isolation * 0.5 + reconstruction.value * 0.5 else isolation
  }

  datatype AlertLevel = Normal | Watch | Warning | Critical

  function LevelRank(l: AlertLevel): nat {
    match l
    case Normal => 0
    case Watch => 1
    case Warning => 2
    case Critical => 3
  }

  function LevelName(l: AlertLevel): string {
    match l
    case Normal => "normal"
    case Watch => "watch"
    case Warning => "warning"
    case Critical => "critical"
  }

  function AlertLevelFor(score: real): (l: AlertLevel)
    ensures l == Critical <==> score >= 0.7
    ensures l == Warning <==> 0.5 <= score < 0.7
    ensures l == Watch <==> 0.3 <= score < 0.5
    ensures l == Normal <==> score < 0.3
  {
    if score >= 0.7 then Critical
    else if score >= 0.5 then Warning
    else if score >= 0.3 then Watch
    else Normal
  }

  lemma AlertLevelMonotone(s1: real, s2: real)
    requires s1 <= s2
    ensures LevelRank(AlertLevelFor(s1)) <= LevelRank(AlertLevelFor(s2))
  {
  }

  /** A larger isolation score or reconstruction error never lowers the
      alert level of the combined score. */
  lemma CombinedLevelMonotone(i1: real, i2: real, e1: real, e2: real)
    requires i1 <= i2 && e1 <= e2
    ensures LevelRank(AlertLevelFor(CombinedScore(i1, Some(e1))))
         <= LevelRank(AlertLevelFor(CombinedScore(i2, Some(e2))))
    ensures LevelRank(AlertLevelFor(CombinedScore(i1, None)))
         <= LevelRank(AlertLevelFor(CombinedScore(i2, None)))
  {
    AlertLevelMonotone(CombinedScore(i1, Some(e1)), CombinedScore(i2, Some(e2)));
    AlertLevelMonotone(i1, i2);
  }

  /** The recommended action of a level name; unknown names get the normal one. */
  function GetAction(level: string): (a: string)
    ensures level !in {"critical", "warning", "watch"} ==> a == "Maintain standard monitoring schedule"
  {
    if level == "critical" then "Initiate emergency response protocols immediately"
    else if level == "warning" then "Increase monitoring frequency, prepare contingency plans"
    else if level == "watch" then "Continue monitoring, no immediate action required"
    else "Maintain standard monitoring schedule"
  }

  /** The last three hourly readings average more than twice the three
      before them, and more than 10 mm/h. */
  predicate RainfallSurge(rain: seq<real>) {
    |rain| >= 6
    && var recent := Sum(rain[|rain| - 3..]) / 3.0;
       var older := Sum(rain[|rain| - 6..|rain| - 3]) / 3.0;
       recent > older * 2.0 && recent > 10.0
  }

  /** Steady rain, however heavy, is never a surge. */
  lemma SteadyRainNoSurge(rain: seq<real>, c: real)
    requires forall i :: 0 <= i < |rain| ==> rain[i] == c
    ensures !RainfallSurge(rain)
  {
    if |rain| >= 6 {
      SumConstant(rain[|rain| - 3..], c);
      SumConstant(rain[|rain| - 6..|rain| - 3], c);
    }
  }

  // ---------------------------------------------------------------------
  // Trend
  // ---------------------------------------------------------------------

  datatype Direction = Increasing | Decreasing | Stable

  /** `samples` is reported only once five scores are available; `change`
      is reported rounded to three places. */
  datatype TrendResult = TrendResult(direction: Direction, change: real, samples: Option<nat>)

  /** The change between the first two and the last two of the last five scores. */
  function Trend(history: seq<real>): (t: TrendResult)
    ensures |history| < 5 ==> t == TrendResult(Stable, 0.0, None)
    ensures |history| >= 5 ==>
              var n := |history|;
              var change := (history[n - 2] + history[n - 1]) / 2.0 - (history[n - 5] + history[n - 4]) / 2.0;
              && t.change == Round(change, 3)
              && t.samples == Some(n)
              && (t.direction == Increasing <==> change > 0.1)
              && (t.direction == Decreasing <==> change < -0.1)
  {
    if |history| < 5 then TrendResult(Stable, 0.0, None)
    else
      var recent := history[|history| - 5..];
      var change := (recent[3] + recent[4]) / 2.0 - (recent[0] + recent[1]) / 2.0;
      var direction := if change > 0.1 then Increasing else if change < -0.1 then Decreasing else Stable;
      TrendResult(direction, Round(change, 3), Some(|history|))
  }

  /** Only the last five scores matter, and shifting them all by the same
      amount changes nothing. */
  lemma TrendLastFive(history: seq<real>, shifted: seq<real>, delta: real)
    requires |history| == |shifted| >= 5
    requires forall i :: |history| - 5 <= i < |history| ==> shifted[i] == history[i] + delta
    ensures Trend(shifted) == Trend(history)
  {
    var n := |history|;
    assert shifted[n - 5..][0] == history[n - 5..][0] + delta;
    assert shifted[n - 5..][1] == history[n - 5..][1] + delta;
    assert shifted[n - 5..][3] == history[n - 5..][3] + delta;
    assert shifted[n - 5..][4] == history[n - 5..][4] + delta;
  }

  /** When each of the last two scores exceeds each of the two oldest of the
      last five by more than 0.1, the trend is increasing; the mirror case
      is decreasing. */
  lemma TrendFollowsScores(history: seq<real>)
    requires |history| >= 5
    ensures var n := |history|;
            (forall i, j :: n - 5 <= i < n - 3 && n - 2 <= j < n ==> history[j] > history[i] + 0.1)
            ==> Trend(history).direction == Increasing
    ensures var n := |history|;
            (forall i, j :: n - 5 <= i < n - 3 && n - 2 <= j < n ==> history[j] < history[i] - 0.1)
            ==> Trend(history).direction == Decreasing
  {
    var n := |history|;
    if forall i, j :: n - 5 <= i < n - 3 && n - 2 <= j < n ==> history[j] > history[i] + 0.1 {
      assert history[n - 2] > history[n - 5] + 0.1 && history[n - 1] > history[n - 4] + 0.1;
    }
    if forall i, j :: n - 5 <= i < n - 3 && n - 2 <= j < n ==> history[j] < history[i] - 0.1 {
      assert history[n - 2] < history[n - 5] - 0.1 && history[n - 1] < history[n - 4] - 0.1;
    }
  }

  // ---------------------------------------------------------------------
  // The detector
  // ---------------------------------------------------------------------

  const WindowCapacity: nat := 100

  /** What the autoencoder finds for a non-empty time series: its
      reconstruction error (one minus the best pattern similarity, before the
      report rounds it) and whether the pre-flood pattern matched. */
  datatype AutoencoderOutcome = AutoencoderOutcome(reconstructionError: real, earlyWarningTriggered: bool)

  datatype EarlyWarningKind = RainfallSurgeWarning | PatternMatchWarning

  /** `combinedScore` is the reported value, rounded to three places; the
      level, the anomaly flag and the window use the unrounded score. */
  datatype Detection = Detection(isolation: IsolationResult, combinedScore: real, level: AlertLevel,
                                 isAnomalous: bool, earlyWarnings: seq<EarlyWarningKind>,
                                 trend: TrendResult, action: string)

  /** The surge warning (from the hourly rainfall series), then the pattern warning. */
  function EarlyWarnings(timeSeries: map<string, seq<real>>, ae: AutoencoderOutcome): (ws: seq<EarlyWarningKind>)
    ensures RainfallSurgeWarning in ws <==>
              "rainfall_hourly" in timeSeries && RainfallSurge(timeSeries["rainfall_hourly"])
    ensures PatternMatchWarning in ws <==> |timeSeries| > 0 && ae.earlyWarningTriggered
    ensures |ws| <= 2
    ensures forall i, j :: 0 <= i < j < |ws| ==> ws[i] == RainfallSurgeWarning && ws[j] == PatternMatchWarning
  {
    (if "rainfall_hourly" in timeSeries && RainfallSurge(timeSeries["rainfall_hourly"])
     then [RainfallSurgeWarning] else [])
    + (if |timeSeries| > 0 && ae.earlyWarningTriggered then [PatternMatchWarning] else [])
  }

  /** The rolling window after one more score: at most 100, oldest dropped. */
  lemma WindowKeepsMostRecent(h: seq<real>, score: real)
    requires |h| <= WindowCapacity
    ensures var r := Last(h + [score], WindowCapacity);
            && |r| == Min(|h| + 1, WindowCapacity)
            && r[|r| - 1] == score
            && r[..|r| - 1] == h[|h| - (|r| - 1)..]
  {
    LastOfAppend(h, score, WindowCapacity);
  }

  class AnomalyDetector {
    /** The combined scores of past detections, oldest first. */
    var history: seq<real>

    ghost predicate Valid()
      reads this
    {
      |history| <= WindowCapacity
    }

    constructor ()
      ensures Valid() && history == []
    {
      history := [];
    }

    /** Run both detectors, combine, classify, record the combined score in
        the window and report the trend. An empty time-series map stands for
        a missing or empty one; then the autoencoder outcome is not used.
        The autoencoder reports its error rounded to three places. */
    method Detect(current: seq<(string, Reading)>, timeSeries: map<string, seq<real>>,
                  ae: AutoencoderOutcome) returns (d: Detection)
      requires Valid()
      modifies this
      ensures Valid()
      ensures d.isolation == Isolation(current)
      ensures var combined := CombinedScore(d.isolation.overall,
                                            if |timeSeries| > 0 then Some(Round(ae.reconstructionError, 3))
                                            else None);
              && d.combinedScore == Round(combined, 3)
              && d.level == AlertLevelFor(combined)
              && (d.isAnomalous <==> combined > 0.5)
              && history == Last(old(history) + [combined], WindowCapacity)
      ensures d.earlyWarnings == EarlyWarnings(timeSeries, ae)
      ensures d.trend == Trend(history)
      ensures d.action == GetAction(LevelName(d.level))
    {
      var iso := IsolationDetect(current);
      var reconstruction := if |timeSeries| > 0 then Some(Round(ae.reconstructionError, 3)) else None;
      var combined := CombinedScore(iso.overall, reconstruction);
      var level := AlertLevelFor(combined);
      var warnings := EarlyWarnings(timeSeries, ae);
      // The window is a bounded deque: appending past capacity drops the oldest.
      history := Last(history + [combined], WindowCapacity);
      d := Detection(iso, Round(combined, 3), level, combined > 0.5, warnings, Trend(history),
                     GetAction(LevelName(level)));
    }
  }
}
