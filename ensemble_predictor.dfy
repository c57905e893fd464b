/** The ensemble flood predictor: the LSTM-style time-series score with its
    regression trend and capped horizons, the XGBoost-style weighted risk
    score with its class table and per-feature attributions, the river
    network (GNN-style) propagation, and the ensemble's weighted vote, risk
    bands, recommended actions, data-quality score and limitations list.
    The exponential distance decay and the standard deviation of the three
    model outputs enter as parameters. */
module EnsemblePredictor {
  import opened Text
  import Sorting

  function Zeros(n: nat): seq<real> {
    seq(n, i => 0.0)
  }

  // ---------------------------------------------------------------------
  // LSTM-style time-series score
  // ---------------------------------------------------------------------

  /** The sum over positions i of (i - xm) * (s[i] - ym). */
  function CrossSum(s: seq<real>, xm: real, ym: real): real
    decreases |s|
  {
    if s == [] then 0.0
    else CrossSum(s[..|s| - 1], xm, ym) + ((|s| - 1) as real - xm) * (s[|s| - 1] - ym)
  }

  /** The sum over positions i < n of (i - xm) squared. */
  function SquareSum(n: nat, xm: real): real
    decreases n
  {
    if n == 0 then 0.0 else SquareSum(n - 1, xm) + ((n - 1) as real - xm) * ((n - 1) as real - xm)
  }

  function Clamp(lo: real, hi: real, x: real): real {
    MaxReal(lo, MinReal(hi, x))
  }

  /** The middle of the positions 0 .. n - 1. */
  function Middle(n: nat): real {
    (n as real - 1.0) / 2.0
  }

  function Mean(s: seq<real>): real
    requires |s| > 0
  {
    Sum(s) / |s| as real
  }

  /** The slope over 5, clamped to [-1, 1]; 0 for a zero denominator. */
  function Slope(cross: real, den: real): (t: real)
    ensures -1.0 <= t <= 1.0
  {
    if den == 0.0 then 0.0 else Clamp(-1.0, 1.0, cross / den / 5.0)
  }

  /** The least-squares slope of the series against its positions, divided
      by 5 and clamped to [-1, 1]; 0 for fewer than two values. */
  function LinearTrend(s: seq<real>): (t: real)
    ensures -1.0 <= t <= 1.0
    ensures |s| < 2 ==> t == 0.0
  {
    if |s| < 2 then 0.0
    else Slope(CrossSum(s, Middle(|s|), Mean(s)), SquareSum(|s|, Middle(|s|)))
  }

  lemma {:induction false} SquareSumAtLeastFirst(n: nat, xm: real)
    requires n >= 1
    ensures SquareSum(n, xm) >= xm * xm
    decreases n
  {
    if n > 1 {
      SquareSumAtLeastFirst(n - 1, xm);
      var d := (n - 1) as real - xm;
      assert d * d >= 0.0;
    }
  }

  /** The zero-denominator guard of the trend never fires: two or more
      positions always spread around their mean. */
  lemma TrendDenominatorPositive(n: nat)
    requires n >= 2
    ensures SquareSum(n, Middle(n)) > 0.0
  {
    SquareSumAtLeastFirst(n, Middle(n));
    assert Middle(n) >= 0.5;
    assert Middle(n) * Middle(n) >= 0.5 * Middle(n);
  }

  lemma {:induction false} CrossSumFlat(s: seq<real>, xm: real, c: real)
    requires forall i :: 0 <= i < |s| ==> s[i] == c
    ensures CrossSum(s, xm, c) == 0.0
    decreases |s|
  {
    if s != [] {
      CrossSumFlat(s[..|s| - 1], xm, c);
    }
  }

  /** A series that stays at one value has no trend. */
  lemma FlatSeriesHasNoTrend(s: seq<real>, c: real)
    requires forall i :: 0 <= i < |s| ==> s[i] == c
    ensures LinearTrend(s) == 0.0
  {
    if |s| >= 2 {
      SumConstant(s, c);
      assert Mean(s) == c;
      CrossSumFlat(s, Middle(|s|), c);
    }
  }

  /** The readings lie on the straight line a + b * i. */
  predicate OnLine(s: seq<real>, a: real, b: real) {
    forall i :: 0 <= i < |s| ==> s[i] == a + b * i as real
  }

  /** Each reading's offset from ym is b times its position's offset from xm. */
  predicate Proportional(s: seq<real>, xm: real, ym: real, b: real) {
    forall i :: 0 <= i < |s| ==> s[i] - ym == b * (i as real - xm)
  }

  /** The readings of a straight line a + b * i add up to n * a plus b
      times the sum of the positions. */
  lemma {:induction false} SumLinear(s: seq<real>, a: real, b: real)
    requires OnLine(s, a, b)
    ensures Sum(s) == |s| as real * a + b * (|s| as real * (|s| as real - 1.0) / 2.0)
    decreases |s|
  {
    if s != [] {
      var k := (|s| - 1) as real;
      SumLinear(s[..|s| - 1], a, b);
      assert (k + 1.0) * k / 2.0 == k * (k - 1.0) / 2.0 + k;
      assert b * ((k + 1.0) * k / 2.0) == b * (k * (k - 1.0) / 2.0) + b * k;
    }
  }

  /** When every reading's offset from the mean is b times its position's
      offset, the cross sum is b times the sum of squares. */
  lemma {:induction false} CrossSumProportional(s: seq<real>, xm: real, ym: real, b: real)
    requires Proportional(s, xm, ym, b)
    ensures CrossSum(s, xm, ym) == b * SquareSum(|s|, xm)
    decreases |s|
  {
    if s != [] {
      var d := (|s| - 1) as real - xm;
      CrossSumProportional(s[..|s| - 1], xm, ym, b);
      assert d * (s[|s| - 1] - ym) == b * (d * d);
    }
  }

  /** For readings on a straight line of slope b, the trend is the slope
      over 5, clamped to [-1, 1]. */
  lemma LinearSeriesTrend(s: seq<real>, a: real, b: real)
    requires |s| >= 2
    requires OnLine(s, a, b)
    ensures LinearTrend(s) == Clamp(-1.0, 1.0, b / 5.0)
  {
    LinearOffsets(s, a, b);
    CrossSumProportional(s, Middle(|s|), Mean(s), b);
    TrendFromCross(s, b);
  }

  /** A series whose cross sum is b times its sum of squares has trend b / 5, clamped. */
  lemma TrendFromCross(s: seq<real>, b: real)
    requires |s| >= 2
    requires CrossSum(s, Middle(|s|), Mean(s)) == b * SquareSum(|s|, Middle(|s|))
    ensures LinearTrend(s) == Clamp(-1.0, 1.0, b / 5.0)
  {
    TrendDenominatorPositive(|s|);
    ProportionalSlope(CrossSum(s, Middle(|s|), Mean(s)), b, SquareSum(|s|, Middle(|s|)));
  }

  /** A cross sum that is b times a positive denominator gives the slope b. */
  lemma ProportionalSlope(cross: real, b: real, den: real)
    requires den > 0.0 && cross == b * den
    ensures Slope(cross, den) == Clamp(-1.0, 1.0, b / 5.0)
  {
    DivideProduct(b, den);
  }

  /** On a straight line, each reading's offset from the mean is the slope
      times its position's offset from the middle. */
  lemma LinearOffsets(s: seq<real>, a: real, b: real)
    requires |s| >= 1
    requires OnLine(s, a, b)
    ensures Proportional(s, Middle(|s|), Mean(s), b)
  {
    LinearMean(s, a, b);
    forall i | 0 <= i < |s|
      ensures s[i] - Mean(s) == b * (i as real - Middle(|s|))
    {
      Distribute(b, i as real, Middle(|s|));
    }
  }

  /** The mean of readings on a straight line is its value at the middle position. */
  lemma LinearMean(s: seq<real>, a: real, b: real)
    requires |s| >= 1
    requires OnLine(s, a, b)
    ensures Mean(s) == a + b * Middle(|s|)
  {
    var n := |s| as real;
    SumLinear(s, a, b);
    var y := a + b * ((n - 1.0) / 2.0);
    assert n * y == n * a + b * (n * (n - 1.0) / 2.0);
    DivideProduct(y, n);
  }

  lemma Distribute(b: real, x: real, m: real)
    ensures b * x - b * m == b * (x - m)
  {
  }

  /** The LSTM horizons and the features it reports, rounded as reported:
      the horizons and the trend to three places, the rainfall figures to
      one and the confidence to two. */
  datatype LstmResult = LstmResult(p6: real, p12: real, p24: real, trend: real,
                                   intensity: real, cumulative24: real, cumulative72: real,
                                   confidence: real)

  /** The rainfall series the LSTM reads: fewer than 24 readings are
      replaced by 24 hours without rain. */
  function LstmRainfall(rain: seq<real>): (s: seq<real>)
    ensures |s| >= 24
    ensures |rain| >= 24 ==> s == rain
  {
    if |rain| < 24 then Zeros(24) else rain
  }

  /** The rainfall-driven probability, before the discharge blend: peak of
      the last six hours, the last 24 hours' total, the trend of the last 24
      hours and the whole series' total, capped at 1. */
  function RainfallBase(s: seq<real>): (b: real)
    requires |s| >= 24
    ensures b <= 1.0
  {
    var trend := LinearTrend(Last(s, 24));
    MinReal(1.0, MaxOf(Last(s, 6)) / 50.0 * 0.3 + Sum(Last(s, 24)) / 150.0 * 0.4
                 + (trend + 1.0) * 0.15 + Sum(s) / 400.0 * 0.15)
  }

  /** With discharge readings, 70% rainfall and 30% the peak of the last six
      discharge readings over 1000 (capped at 1). */
  function BlendedBase(base: real, discharge: seq<real>): (b: real)
    ensures discharge == [] ==> b == base
    ensures base <= 1.0 ==> b <= 1.0
  {
    if discharge == [] then base
    else base * 0.7 + MinReal(1.0, MaxOf(Last(discharge, 6)) / 1000.0) * 0.3
  }

  /** The LSTM prediction; the humidity series it is also given is unused.
      The base reads the unrounded trend; only the report is rounded. */
  function LstmPredict(rain: seq<real>, discharge: seq<real>): (r: LstmResult)
    ensures r.p6 == Horizon6(LstmBase(rain, discharge))
    ensures r.p12 == Horizon12(LstmBase(rain, discharge))
    ensures r.p24 == Horizon24(LstmBase(rain, discharge))
    ensures r.p6 <= 0.95 && r.p12 <= 0.95 && r.p24 <= 0.95
    ensures -1.0 <= r.trend <= 1.0
    ensures var s := LstmRainfall(rain);
            && r.intensity == Round(RainfallIntensity(s), 1)
            && r.cumulative24 == Round(Rainfall24h(s), 1)
            && r.cumulative72 == Round(Sum(s), 1)
    ensures |rain| >= 24 ==> && r.intensity == Round(RainfallIntensity(rain), 1)
                             && r.cumulative24 == Round(Rainfall24h(rain), 1)
                             && r.cumulative72 == Round(Sum(rain), 1)
    ensures r.confidence == LstmConfidence(if |rain| < 24 then 24 else |rain|)
  {
    RoundedTrendInRange(LinearTrend(Last(LstmRainfall(rain), 24)));
    HorizonsCapped(LstmBase(rain, discharge));
    LstmResult(Horizon6(LstmBase(rain, discharge)), Horizon12(LstmBase(rain, discharge)),
               Horizon24(LstmBase(rain, discharge)), Round(LinearTrend(Last(LstmRainfall(rain), 24)), 3),
               Round(MaxOf(Last(LstmRainfall(rain), 6)), 1), Round(Sum(Last(LstmRainfall(rain), 24)), 1),
               Round(Sum(LstmRainfall(rain)), 1),
               LstmConfidence(|LstmRainfall(rain)|))
  }

  /** The LSTM's confidence for a series of n readings: 0.75 plus 0.15 per
      72 readings, reported to two places. It is not capped. */
  function LstmConfidence(n: nat): real {
    Round(0.75 + n as real / 72.0 * 0.15, 2)
  }

  /** The confidence is 0.8 at the 24 readings a short series is padded to
      and 0.9 at 72; it never decreases with the length and keeps growing
      past 72 readings (1.05 at 144). */
  lemma LstmConfidenceGrows(n: nat, m: nat)
    ensures LstmConfidence(24) == 0.8 && LstmConfidence(72) == 0.9 && LstmConfidence(144) == 1.05
    ensures n <= m ==> LstmConfidence(n) <= LstmConfidence(m)
    ensures n >= 24 ==> LstmConfidence(n) >= 0.8
  {
    ScaleValues();
    RoundExact(80, 2);
    RoundExact(90, 2);
    RoundExact(105, 2);
    if n <= m {
      LstmConfidenceMonotone(n, m);
    }
    if n >= 24 {
      LstmConfidenceMonotone(24, n);
    }
  }

  lemma LstmConfidenceMonotone(n: nat, m: nat)
    requires n <= m
    ensures LstmConfidence(n) <= LstmConfidence(m)
  {
    DivMonotone(n as real, m as real, 72.0);
    RoundMonotone(0.75 + n as real / 72.0 * 0.15, 0.75 + m as real / 72.0 * 0.15, 2);
  }

  /** The probability before the horizon factors: the rainfall base,
      blended with the discharge when there is any. */
  function LstmBase(rain: seq<real>, discharge: seq<real>): real {
    BlendedBase(RainfallBase(LstmRainfall(rain)), discharge)
  }

  /** A horizon's probability: the base scaled by the horizon's factor
      (1.2 at six hours, 1 at twelve, 0.85 at twenty-four), capped at 0.95
      and reported to three places. */
  function Horizon6(base: real): real {
    Round(MinReal(0.95, base * 1.2), 3)
  }

  function Horizon12(base: real): real {
    Round(MinReal(0.95, base), 3)
  }

  function Horizon24(base: real): real {
    Round(MinReal(0.95, base * 0.85), 3)
  }

  lemma RoundedTrendInRange(t: real)
    requires -1.0 <= t <= 1.0
    ensures -1.0 <= Round(t, 3) <= 1.0
  {
    ScaleValues();
    RoundKeepsBounds(t, -1000, 1000, 3);
  }

  lemma RoundedHorizonCapped(p: real)
    requires p <= 0.95
    ensures Round(p, 3) <= 0.95
  {
    ScaleValues();
    RoundMonotone(p, 0.95, 3);
    RoundExact(950, 3);
  }

  lemma HorizonsCapped(base: real)
    ensures Horizon6(base) <= 0.95 && Horizon12(base) <= 0.95 && Horizon24(base) <= 0.95
  {
    RoundedHorizonCapped(MinReal(0.95, base * 1.2));
    RoundedHorizonCapped(MinReal(0.95, base));
    RoundedHorizonCapped(MinReal(0.95, base * 0.85));
  }

  predicate NonNegative(xs: seq<real>) {
    forall i :: 0 <= i < |xs| ==> xs[i] >= 0.0
  }

  lemma RainfallBaseNonNegative(s: seq<real>)
    requires |s| >= 24 && NonNegative(s)
    ensures 0.0 <= RainfallBase(s)
  {
    var l6 := Last(s, 6);
    var l24 := Last(s, 24);
    assert l6[0] == s[|s| - 6];
    SumNonNegative(l24);
    SumNonNegative(s);
  }

  lemma BlendedBaseNonNegative(base: real, discharge: seq<real>)
    requires base >= 0.0 && NonNegative(discharge)
    ensures BlendedBase(base, discharge) >= 0.0
  {
    if discharge != [] {
      var l := Last(discharge, 6);
      assert l[0] == discharge[|discharge| - 6 + (6 - |l|)];
    }
  }

  /** Scaling a non-negative base by 0.85, 1 and 1.2 under the 0.95 cap,
      then rounding to three places, keeps the three horizons in order. */
  lemma CappedHorizonsOrdered(base: real)
    requires base >= 0.0
    ensures 0.0 <= Horizon24(base) <= Horizon12(base) <= Horizon6(base) <= 0.95
  {
    ScaleValues();
    RoundKeepsBounds(MinReal(0.95, base * 0.85), 0, 950, 3);
    RoundKeepsBounds(MinReal(0.95, base * 1.2), 0, 950, 3);
    RoundMonotone(MinReal(0.95, base * 0.85), MinReal(0.95, base), 3);
    RoundMonotone(MinReal(0.95, base), MinReal(0.95, base * 1.2), 3);
  }

  /** With non-negative readings the horizons are ordered: the nearer the
      horizon, the higher the probability, all within [0, 0.95]. */
  lemma LstmHorizonsOrdered(rain: seq<real>, discharge: seq<real>)
    requires NonNegative(rain) && NonNegative(discharge)
    ensures var r := LstmPredict(rain, discharge);
            0.0 <= r.p24 <= r.p12 <= r.p6 <= 0.95
  {
    var s := LstmRainfall(rain);
    RainfallBaseNonNegative(s);
    BlendedBaseNonNegative(RainfallBase(s), discharge);
    CappedHorizonsOrdered(LstmBase(rain, discharge));
  }

  /** Fewer than 24 readings and no discharge give the fixed no-rain
      prediction: a base of 0.15 from the neutral trend alone, whose 24-hour
      horizon 0.1275 is reported, half to even, as 0.128. */
  lemma {:induction false} ShortRainfallGivesBaseline(rain: seq<real>)
    requires |rain| < 24
    ensures var r := LstmPredict(rain, []);
            && r.p6 == 0.18 && r.p12 == 0.15 && r.p24 == 0.128
            && r.trend == 0.0 && r.confidence == 0.8
  {
    var z := Zeros(24);
    FlatSeriesHasNoTrend(Last(z, 24), 0.0);
    SumConstant(Last(z, 24), 0.0);
    SumConstant(z, 0.0);
    var m := MaxOf(Last(z, 6));
    assert m == 0.0;
    ScaleValues();
    RoundExact(180, 3);
    RoundExact(150, 3);
    RoundExact(0, 3);
    RoundExact(80, 2);
    assert UnitsOf(0.1275, 1000.0) == 128;
  }

  /** A series of fewer than 24 readings reports no intensity and no
      accumulated rainfall, whatever the discharge. */
  lemma ShortRainfallReportsNoRain(rain: seq<real>, discharge: seq<real>)
    requires |rain| < 24
    ensures var r := LstmPredict(rain, discharge);
            r.intensity == 0.0 && r.cumulative24 == 0.0 && r.cumulative72 == 0.0
  {
    ZeroSeriesFeatures(LstmRainfall(rain));
  }

  lemma ZeroSeriesFeatures(z: seq<real>)
    requires z == Zeros(24)
    ensures Round(RainfallIntensity(z), 1) == 0.0 && Round(Rainfall24h(z), 1) == 0.0
    ensures Round(Sum(z), 1) == 0.0
  {
    SumConstant(Last(z, 24), 0.0);
    SumConstant(z, 0.0);
    var m := MaxOf(Last(z, 6));
    assert m == 0.0;
    RoundExact(0, 1);
  }

  // ---------------------------------------------------------------------
  // XGBoost-style risk score
  // ---------------------------------------------------------------------

  /** The weighted features, in the order of the weight table. */
  const FeatureNames: seq<string> := ["rainfall_24h", "rainfall_intensity", "soil_moisture",
    "elevation", "distance_to_river", "historical_flood_freq", "drainage_density", "urbanization"]

  const FeatureWeights: seq<real> := [0.25, 0.20, 0.15, 0.10, 0.12, 0.10, 0.05, 0.03]

  lemma {:induction false} WeightsSumToOne()
    ensures |FeatureWeights| == |FeatureNames|
    ensures Sum(FeatureWeights) == 1.0
  {
    var w := FeatureWeights;
    assert w[..7] == [0.25, 0.20, 0.15, 0.10, 0.12, 0.10, 0.05];
    assert w[..7][..6] == [0.25, 0.20, 0.15, 0.10, 0.12, 0.10];
    assert w[..7][..6][..5] == [0.25, 0.20, 0.15, 0.10, 0.12];
    assert w[..7][..6][..5][..4] == [0.25, 0.20, 0.15, 0.10];
    assert w[..7][..6][..5][..4][..3] == [0.25, 0.20, 0.15];
    assert w[..7][..6][..5][..4][..3][..2] == [0.25, 0.20];
    assert w[..7][..6][..5][..4][..3][..2][..1] == [0.25];
    assert Sum([0.25]) == 0.25;
    assert Sum([0.25, 0.20]) == 0.45;
    assert Sum([0.25, 0.20, 0.15]) == 0.60;
    assert Sum([0.25, 0.20, 0.15, 0.10]) == 0.70;
    assert Sum([0.25, 0.20, 0.15, 0.10, 0.12]) == 0.82;
    assert Sum([0.25, 0.20, 0.15, 0.10, 0.12, 0.10]) == 0.92;
    assert Sum([0.25, 0.20, 0.15, 0.10, 0.12, 0.10, 0.05]) == 0.97;
  }

  /** `features.get(name, default)`. */
  function Get(f: map<string, real>, name: string, default: real): real {
    if name in f then f[name] else default
  }

  /** A feature value scaled to its risk: rainfall saturating at 100 mm and
      30 mm/h, soil moisture as a fraction, elevation below 500 m and
      distance below 2000 m as closeness; other features as given. */
  function Normalized(name: string, value: real): real {
    if name == "rainfall_24h" then MinReal(1.0, value / 100.0)
    else if name == "rainfall_intensity" then MinReal(1.0, value / 30.0)
    else if name == "soil_moisture" then value / 100.0
    else if name == "elevation" then MaxReal(0.0, 1.0 - value / 500.0)
    else if name == "distance_to_river" then MaxReal(0.0, 1.0 - value / 2000.0)
    else value
  }

  /** The weighted score of the eight feature values. */
  function WeightedScore(rain24: real, intensity: real, soil: real, elevation: real,
                         distance: real, frequency: real, drainage: real, urban: real): real
  {
    MinReal(1.0, rain24 / 100.0) * 0.25 + MinReal(1.0, intensity / 30.0) * 0.20
    + soil / 100.0 * 0.15 + MaxReal(0.0, 1.0 - elevation / 500.0) * 0.10
    + MaxReal(0.0, 1.0 - distance / 2000.0) * 0.12 + frequency * 0.10
    + drainage * 0.05 + urban * 0.03
  }

  /** The weighted score, each feature taking its default when absent;
      `slope` is among the defaults read but carries no weight. */
  function RiskScore(f: map<string, real>): real {
    WeightedScore(Get(f, "rainfall_24h", 0.0), Get(f, "rainfall_intensity", 0.0),
                  Get(f, "soil_moisture", 50.0), Get(f, "elevation", 100.0),
                  Get(f, "distance_to_river", 1000.0), Get(f, "historical_flood_freq", 0.1),
                  Get(f, "drainage_density", 0.5), Get(f, "urbanization", 0.3))
  }

  lemma SlopeHasNoEffect(f: map<string, real>, v: real)
    ensures RiskScore(f["slope" := v]) == RiskScore(f)
  {
  }

  /** Features in their natural ranges: non-negative rainfall, elevation and
      distance, soil moisture in percent, and fractions in [0, 1]. */
  predicate InNaturalRange(f: map<string, real>) {
    && ("rainfall_24h" in f ==> f["rainfall_24h"] >= 0.0)
    && ("rainfall_intensity" in f ==> f["rainfall_intensity"] >= 0.0)
    && ("soil_moisture" in f ==> 0.0 <= f["soil_moisture"] <= 100.0)
    && ("elevation" in f ==> f["elevation"] >= 0.0)
    && ("distance_to_river" in f ==> f["distance_to_river"] >= 0.0)
    && ("historical_flood_freq" in f ==> 0.0 <= f["historical_flood_freq"] <= 1.0)
    && ("drainage_density" in f ==> 0.0 <= f["drainage_density"] <= 1.0)
    && ("urbanization" in f ==> 0.0 <= f["urbanization"] <= 1.0)
  }

  lemma WeightedScoreInUnit(rain24: real, intensity: real, soil: real, elevation: real,
                            distance: real, frequency: real, drainage: real, urban: real)
    requires rain24 >= 0.0 && intensity >= 0.0 && 0.0 <= soil <= 100.0
    requires elevation >= 0.0 && distance >= 0.0
    requires 0.0 <= frequency <= 1.0 && 0.0 <= drainage <= 1.0 && 0.0 <= urban <= 1.0
    ensures 0.0 <= WeightedScore(rain24, intensity, soil, elevation, distance, frequency,
                                 drainage, urban) <= 1.0
  {
  }

  /** For features in their natural ranges the score is in [0, 1]. */
  lemma RiskScoreInUnit(f: map<string, real>)
    requires InNaturalRange(f)
    ensures 0.0 <= RiskScore(f) <= 1.0
  {
    WeightedScoreInUnit(Get(f, "rainfall_24h", 0.0), Get(f, "rainfall_intensity", 0.0),
                        Get(f, "soil_moisture", 50.0), Get(f, "elevation", 100.0),
                        Get(f, "distance_to_river", 1000.0), Get(f, "historical_flood_freq", 0.1),
                        Get(f, "drainage_density", 0.5), Get(f, "urbanization", 0.3));
  }

  datatype RiskClass = Low | Medium | High | Severe

  function RiskName(c: RiskClass): string {
    match c
    case Low => "Low"
    case Medium => "Medium"
    case High => "High"
    case Severe => "Severe"
  }

  function ClassIndex(c: RiskClass): (i: nat)
    ensures i < 4
  {
    match c
    case Low => 0
    case Medium => 1
    case High => 2
    case Severe => 3
  }

  /** The XGBoost class of a score: bands below 0.25, 0.5 and 0.75. */
  function XgbClass(score: real): (c: RiskClass)
    ensures c == Low <==> score < 0.25
    ensures c == Medium <==> 0.25 <= score < 0.5
    ensures c == High <==> 0.5 <= score < 0.75
    ensures c == Severe <==> 0.75 <= score
  {
    if score < 0.25 then Low
    else if score < 0.5 then Medium
    else if score < 0.75 then High
    else Severe
  }

  lemma SumOfFour(p: seq<real>)
    requires |p| == 4
    ensures Sum(p) == p[0] + p[1] + p[2] + p[3]
  {
    var a := p[..3];
    var b := a[..2];
    var c := b[..1];
    assert Sum(c) == Sum(c[..0]) + c[0] && c[..0] == [];
    assert Sum(b) == Sum(c) + b[1];
    assert Sum(a) == Sum(b) + a[2];
    assert Sum(p) == Sum(a) + p[3];
  }

  /** The class-probability row of each class, in Low, Medium, High, Severe
      order: a distribution whose largest entry is the class itself. */
  function ClassProbs(c: RiskClass): (p: seq<real>)
    ensures |p| == 4
    ensures Sum(p) == 1.0
    ensures forall i :: 0 <= i < 4 ==> 0.0 <= p[i] <= p[ClassIndex(c)]
  {
    var p := match c
      case Low => [0.7, 0.2, 0.08, 0.02]
      case Medium => [0.2, 0.55, 0.2, 0.05]
      case High => [0.05, 0.2, 0.55, 0.2]
      case Severe => [0.02, 0.08, 0.25, 0.65];
    SumOfFour(p);
    p
  }

  /** The reported confidence: the largest class probability, which is the
      probability of the predicted class. */
  function XgbConfidence(c: RiskClass): (conf: real)
    ensures conf == ClassProbs(c)[ClassIndex(c)]
  {
    MaxOf(ClassProbs(c))
  }

  // ---------------------------------------------------------------------
  // Per-feature attributions
  // ---------------------------------------------------------------------

  /** Every weighted feature is given. */
  predicate HasAllFeatures(f: map<string, real>) {
    && "rainfall_24h" in f && "rainfall_intensity" in f && "soil_moisture" in f
    && "elevation" in f && "distance_to_river" in f && "historical_flood_freq" in f
    && "drainage_density" in f && "urbanization" in f
  }

  function Contribution(name: string, value: real, weight: real): real {
    Normalized(name, value) * weight
  }

  /** The attributions of the first k weighted features, in weight-table
      order, for the features present in the input, each rounded to four
      places. */
  function ShapUpTo(f: map<string, real>, k: nat): seq<(string, real)>
    requires k <= |FeatureNames|
    decreases k
  {
    if k == 0 then []
    else
      var name := FeatureNames[k - 1];
      ShapUpTo(f, k - 1)
      + (if name in f then [(name, Round(Contribution(name, f[name], FeatureWeights[k - 1]), 4))] else [])
  }

  /** Descending by absolute value is ascending by its negation. */
  function ShapKey(p: (string, real)): real {
    -AbsReal(p.1)
  }

  /** The attribution loop over the weight table, then the stable sort by
      descending absolute contribution. */
  method ShapValues(f: map<string, real>) returns (shap: seq<(string, real)>)
    ensures shap == Sorting.SortBy(ShapUpTo(f, |FeatureNames|), ShapKey)
  {
    var acc: seq<(string, real)> := [];
    var i := 0;
    while i < |FeatureNames|
      invariant 0 <= i <= |FeatureNames|
      invariant acc == ShapUpTo(f, i)
    {
      var name := FeatureNames[i];
      if name in f {
        acc := acc + [(name, Round(Contribution(name, f[name], FeatureWeights[i]), 4))];
      }
      i := i + 1;
    }
    shap := Sorting.SortBy(acc, ShapKey);
  }

  /** An attribution is a present, weighted feature with its rounded contribution. */
  lemma {:induction false} ShapUpToEntries(f: map<string, real>, k: nat, p: (string, real))
    requires k <= |FeatureNames|
    ensures p in ShapUpTo(f, k) <==>
              exists i :: 0 <= i < k && FeatureNames[i] == p.0 && p.0 in f
                          && p.1 == Round(Contribution(p.0, f[p.0], FeatureWeights[i]), 4)
    decreases k
  {
    if k > 0 {
      ShapUpToEntries(f, k - 1, p);
    }
  }

  /** Sorting keeps exactly the attributions it is given. */
  lemma ShapSortKeepsEntries(f: map<string, real>, p: (string, real))
    ensures var u := ShapUpTo(f, |FeatureNames|);
            var s := Sorting.SortBy(u, ShapKey);
            && multiset(s) == multiset(u)
            && (p in s <==> p in u)
  {
    var u := ShapUpTo(f, |FeatureNames|);
    var s := Sorting.SortBy(u, ShapKey);
    Sorting.SortBySortedPermutation(u, ShapKey);
    assert p in s <==> p in multiset(s);
    assert p in u <==> p in multiset(u);
  }

  /** The sorted attributions descend by absolute value. */
  lemma ShapValuesDescend(f: map<string, real>)
    ensures var s := Sorting.SortBy(ShapUpTo(f, |FeatureNames|), ShapKey);
            forall i, j :: 0 <= i < j < |s| ==> AbsReal(s[i].1) >= AbsReal(s[j].1)
  {
    var s := Sorting.SortBy(ShapUpTo(f, |FeatureNames|), ShapKey);
    Sorting.SortBySortedPermutation(ShapUpTo(f, |FeatureNames|), ShapKey);
    forall i, j | 0 <= i < j < |s|
      ensures AbsReal(s[i].1) >= AbsReal(s[j].1)
    {
      assert ShapKey(s[i]) <= ShapKey(s[j]);
    }
  }

  /** A feature has an attribution exactly when it is both given and
      weighted, and then it is its weighted contribution to four places. */
  lemma ShapValuesCover(f: map<string, real>, name: string)
    ensures var s := Sorting.SortBy(ShapUpTo(f, |FeatureNames|), ShapKey);
            && ((exists v :: (name, v) in s) <==> name in f && name in FeatureNames)
            && (forall i :: 0 <= i < |FeatureNames| && FeatureNames[i] == name && name in f ==>
                  (name, Round(Contribution(name, f[name], FeatureWeights[i]), 4)) in s)
  {
    var s := Sorting.SortBy(ShapUpTo(f, |FeatureNames|), ShapKey);
    if name in f && name in FeatureNames {
      var i :| 0 <= i < |FeatureNames| && FeatureNames[i] == name;
      var p := (name, Round(Contribution(name, f[name], FeatureWeights[i]), 4));
      ShapUpToEntries(f, |FeatureNames|, p);
      ShapSortKeepsEntries(f, p);
    }
    if exists v :: (name, v) in s {
      var v :| (name, v) in s;
      ShapSortKeepsEntries(f, (name, v));
      ShapUpToEntries(f, |FeatureNames|, (name, v));
    }
    forall i | 0 <= i < |FeatureNames| && FeatureNames[i] == name && name in f
      ensures (name, Round(Contribution(name, f[name], FeatureWeights[i]), 4)) in s
    {
      var p := (name, Round(Contribution(name, f[name], FeatureWeights[i]), 4));
      ShapUpToEntries(f, |FeatureNames|, p);
      ShapSortKeepsEntries(f, p);
    }
  }

  function ContributionSum(s: seq<(string, real)>): real
    decreases |s|
  {
    if s == [] then 0.0 else ContributionSum(s[..|s| - 1]) + s[|s| - 1].1
  }

  lemma ContributionSumStep(f: map<string, real>, k: nat)
    requires 1 <= k <= |FeatureNames| && FeatureNames[k - 1] in f
    ensures ContributionSum(ShapUpTo(f, k)) == ContributionSum(ShapUpTo(f, k - 1)) + ReportedAt(f, k - 1)
  {
    var s := ShapUpTo(f, k);
    assert s[..|s| - 1] == ShapUpTo(f, k - 1);
  }

  /** When every weighted feature is given, the rounded attributions add up
      to the risk score within 0.0004: eight roundings of at most 0.00005. */
  lemma ShapSumNearRiskScore(f: map<string, real>)
    requires HasAllFeatures(f)
    ensures -0.0004 <= ContributionSum(ShapUpTo(f, |FeatureNames|)) - RiskScore(f) <= 0.0004
  {
    ShapSumOfContributions(f);
    RiskScoreIsContributionSum(f);
    ReportedNear(f, 0);
    ReportedNear(f, 1);
    ReportedNear(f, 2);
    ReportedNear(f, 3);
    ReportedNear(f, 4);
    ReportedNear(f, 5);
    ReportedNear(f, 6);
    ReportedNear(f, 7);
  }

  /** With every feature given, the risk score is the sum of the eight
      unrounded contributions. */
  lemma RiskScoreIsContributionSum(f: map<string, real>)
    requires HasAllFeatures(f)
    ensures RiskScore(f) == ContributionAt(f, 0) + ContributionAt(f, 1) + ContributionAt(f, 2)
                            + ContributionAt(f, 3) + ContributionAt(f, 4) + ContributionAt(f, 5)
                            + ContributionAt(f, 6) + ContributionAt(f, 7)
  {
    ContributionsAreTerms(f);
  }

  /** The contribution of feature i of the weight table. */
  function ContributionAt(f: map<string, real>, i: nat): real
    requires i < |FeatureNames| && FeatureNames[i] in f
  {
    Contribution(FeatureNames[i], f[FeatureNames[i]], FeatureWeights[i])
  }

  /** The contribution of feature i as reported, to four places. */
  function ReportedAt(f: map<string, real>, i: nat): real
    requires i < |FeatureNames| && FeatureNames[i] in f
  {
    Round(ContributionAt(f, i), 4)
  }

  lemma ReportedNear(f: map<string, real>, i: nat)
    requires i < |FeatureNames| && FeatureNames[i] in f
    ensures -0.00005 <= ReportedAt(f, i) - ContributionAt(f, i) <= 0.00005
  {
    ScaleValues();
  }

  lemma ShapSumOfFirstFour(f: map<string, real>)
    requires HasAllFeatures(f)
    ensures ContributionSum(ShapUpTo(f, 4))
         == ReportedAt(f, 0) + ReportedAt(f, 1) + ReportedAt(f, 2) + ReportedAt(f, 3)
  {
    ContributionSumStep(f, 1);
    ContributionSumStep(f, 2);
    ContributionSumStep(f, 3);
    ContributionSumStep(f, 4);
  }

  /** With every feature given, the attribution list holds all eight
      rounded contributions, so its sum is theirs. */
  lemma ShapSumOfContributions(f: map<string, real>)
    requires HasAllFeatures(f)
    ensures ContributionSum(ShapUpTo(f, 8))
         == ReportedAt(f, 0) + ReportedAt(f, 1) + ReportedAt(f, 2) + ReportedAt(f, 3)
            + ReportedAt(f, 4) + ReportedAt(f, 5) + ReportedAt(f, 6) + ReportedAt(f, 7)
  {
    ShapSumOfFirstFour(f);
    ContributionSumStep(f, 5);
    ContributionSumStep(f, 6);
    ContributionSumStep(f, 7);
    ContributionSumStep(f, 8);
  }

  /** Each weighted feature's contribution is its term of the weighted score. */
  lemma ContributionsAreTerms(f: map<string, real>)
    requires HasAllFeatures(f)
    ensures && ContributionAt(f, 0) == MinReal(1.0, f["rainfall_24h"] / 100.0) * 0.25
            && ContributionAt(f, 1) == MinReal(1.0, f["rainfall_intensity"] / 30.0) * 0.20
            && ContributionAt(f, 2) == f["soil_moisture"] / 100.0 * 0.15
            && ContributionAt(f, 3) == MaxReal(0.0, 1.0 - f["elevation"] / 500.0) * 0.10
            && ContributionAt(f, 4) == MaxReal(0.0, 1.0 - f["distance_to_river"] / 2000.0) * 0.12
            && ContributionAt(f, 5) == f["historical_flood_freq"] * 0.10
            && ContributionAt(f, 6) == f["drainage_density"] * 0.05
            && ContributionAt(f, 7) == f["urbanization"] * 0.03
  {
  }

  /** The XGBoost output; `shap` is the sorted attribution list and
      `riskScore` the score as reported, to three places. The class
      probabilities and the confidence are already at three and two places,
      so their rounding changes nothing. */
  datatype XgbResult = XgbResult(riskClass: RiskClass, riskScore: real, probs: seq<real>,
                                 shap: seq<(string, real)>, confidence: real)

  /** The class is chosen on the unrounded score; the score is reported
      within 0.0005 of it. */
  function XgbPredict(f: map<string, real>): (r: XgbResult)
    ensures r.riskClass == XgbClass(RiskScore(f))
    ensures r.riskScore == Round(RiskScore(f), 3)
    ensures -0.0005 <= r.riskScore - RiskScore(f) <= 0.0005
    ensures r.probs == ClassProbs(r.riskClass) && r.confidence == XgbConfidence(r.riskClass)
    ensures Sum(r.probs) == 1.0
    ensures forall i :: 0 <= i < |r.probs| ==> r.probs[i] <= r.confidence
    ensures r.shap == Sorting.SortBy(ShapUpTo(f, |FeatureNames|), ShapKey)
  {
    var score := RiskScore(f);
    var c := XgbClass(score);
    ScaleValues();
    XgbResult(c, Round(score, 3), ClassProbs(c), Sorting.SortBy(ShapUpTo(f, |FeatureNames|), ShapKey),
              XgbConfidence(c))
  }

  // ---------------------------------------------------------------------
  // River network propagation
  // ---------------------------------------------------------------------

  /** An upstream station: its flood risk (default 0) and distance in km
      (default 50). */
  datatype Station = Station(floodRisk: Option<real>, distanceKm: Option<real>)

  datatype GnnResult = GnnResult(propagation: real, arrivalHours: Option<real>,
                                 confidence: real, stations: nat)

  function Risks(st: seq<Station>): seq<real> {
    seq(|st|, i requires 0 <= i < |st| => st[i].floodRisk.GetOr(0.0))
  }

  function Distances(st: seq<Station>): seq<real> {
    seq(|st|, i requires 0 <= i < |st| => st[i].distanceKm.GetOr(50.0))
  }

  /** 60% the highest and 40% the mean upstream risk. */
  function UpstreamRisk(risks: seq<real>): real
    requires |risks| > 0
  {
    MaxOf(risks) * 0.6 + Sum(risks) / |risks| as real * 0.4
  }

  lemma UpstreamRiskInUnit(risks: seq<real>)
    requires |risks| > 0
    requires forall i :: 0 <= i < |risks| ==> 0.0 <= risks[i] <= 1.0
    ensures 0.0 <= UpstreamRisk(risks) <= 1.0
  {
    MeanInUnit(risks);
    var m := MaxOf(risks);
    assert risks[0] <= m;
  }

  /** The river flow velocity, in km/h. */
  const FlowVelocity: real := 5.0

  /** The upstream risk attenuated by the decay of the nearest distance. */
  function RawPropagation(upstream: seq<Station>, decay: real -> real): real
    requires upstream != []
  {
    UpstreamRisk(Risks(upstream)) * decay(MinOf(Distances(upstream)))
  }

  /** The travel time from the nearest upstream station, in hours. */
  function Arrival(upstream: seq<Station>): real
    requires upstream != []
  {
    MinOf(Distances(upstream)) / FlowVelocity
  }

  /** Propagation from upstream stations: 60% the highest and 40% the mean
      risk, attenuated by `decay` of the nearest distance (the source's
      exp(-d/100)), capped at 0.95 and reported to three places; arrival at
      the flow velocity, to one place, and none when it is zero. Without
      stations: no propagation, no arrival and confidence 0.3. */
  function GnnPredict(upstream: seq<Station>, decay: real -> real): (r: GnnResult)
    ensures upstream == [] ==> r == GnnResult(0.0, None, 0.3, 0)
    ensures r.stations == |upstream|
    ensures r.propagation <= 0.95
    ensures upstream != [] ==> r.propagation == Round(MinReal(0.95, RawPropagation(upstream, decay)), 3)
    ensures upstream != [] ==>
              r.arrivalHours == if Arrival(upstream) != 0.0 then Some(Round(Arrival(upstream), 1)) else None
    ensures upstream != [] ==> r.confidence == 0.6 + 0.02 * |upstream| as real
  {
    if upstream == [] then GnnResult(0.0, None, 0.3, 0)
    else
      RoundedHorizonCapped(MinReal(0.95, RawPropagation(upstream, decay)));
      GnnConfidenceExact(|upstream|);
      GnnResult(Round(MinReal(0.95, RawPropagation(upstream, decay)), 3),
                if Arrival(upstream) != 0.0 then Some(Round(Arrival(upstream), 1)) else None,
                Round(0.6 + |upstream| as real / 10.0 * 0.2, 2), |upstream|)
  }

  /** The station-count confidence 0.6 + 0.02 n is already at two places. */
  lemma GnnConfidenceExact(n: nat)
    ensures Round(0.6 + n as real / 10.0 * 0.2, 2) == 0.6 + 0.02 * n as real
  {
    ScaleValues();
    RoundExact(60 + 2 * n, 2);
    assert (60 + 2 * n) as real / Scale(2) == 0.6 + n as real / 10.0 * 0.2;
  }

  /** With risks in [0, 1] and a non-negative decay, the propagation lies in
      [0, 0.95]. */
  lemma GnnPropagationInRange(upstream: seq<Station>, decay: real -> real)
    requires forall i :: 0 <= i < |upstream| ==> 0.0 <= upstream[i].floodRisk.GetOr(0.0) <= 1.0
    requires forall x :: 0.0 <= decay(x)
    ensures 0.0 <= GnnPredict(upstream, decay).propagation <= 0.95
  {
    if upstream != [] {
      UpstreamRiskInUnit(Risks(upstream));
      NonNegativeProduct(UpstreamRisk(Risks(upstream)), decay(MinOf(Distances(upstream))));
      assert RawPropagation(upstream, decay) >= 0.0;
      ScaleValues();
      RoundKeepsBounds(MinReal(0.95, RawPropagation(upstream, decay)), 0, 950, 3);
    }
  }

  lemma NonNegativeProduct(a: real, b: real)
    requires 0.0 <= a && 0.0 <= b
    ensures 0.0 <= a * b
  {
  }

  // ---------------------------------------------------------------------
  // The ensemble
  // ---------------------------------------------------------------------

  /** The ensemble weighs LSTM at 40%, XGBoost at 45% and GNN at 15%. */
  const LstmWeight: real := 0.40
  const XgbWeight: real := 0.45
  const GnnWeight: real := 0.15

  /** Ensemble risk level: at least 0.75 Severe, 0.5 High, 0.25 Medium. */
  function RiskLevel(p: real): (c: RiskClass)
    ensures c == Severe <==> p >= 0.75
    ensures c == High <==> 0.5 <= p < 0.75
    ensures c == Medium <==> 0.25 <= p < 0.5
    ensures c == Low <==> p < 0.25
  {
    if p >= 0.75 then Severe
    else if p >= 0.5 then High
    else if p >= 0.25 then Medium
    else Low
  }

  /** The ensemble bands and the XGBoost bands are the same. */
  lemma RiskLevelIsXgbClass(p: real)
    ensures RiskLevel(p) == XgbClass(p)
  {
  }

  /** The ensemble probability of a flood within 24 hours. */
  function EnsembleProbability(lstm24: real, risk: real, propagation: real): (p: real)
    ensures 0.0 <= lstm24 <= 1.0 && 0.0 <= risk <= 1.0 && 0.0 <= propagation <= 1.0
            ==> 0.0 <= p <= 1.0
    ensures MinReal(lstm24, MinReal(risk, propagation)) <= p
    ensures p <= MaxReal(lstm24, MaxReal(risk, propagation))
  {
    lstm24 * LstmWeight + risk * XgbWeight + propagation * GnnWeight
  }

  /** The weighted model confidences plus an agreement bonus that shrinks
      with the spread of the three predictions, reported at most 0.95. */
  function EnsembleConfidence(lstm: real, xgb: real, gnn: real, spread: real): (c: real)
    ensures c <= 0.95
    ensures spread >= 0.15 ==> c == MinReal(0.95, lstm * LstmWeight + xgb * XgbWeight + gnn * GnnWeight)
  {
    MinReal(0.95, lstm * LstmWeight + xgb * XgbWeight + gnn * GnnWeight + MaxReal(0.0, 0.15 - spread))
  }

  /** Closer agreement never lowers the confidence: at no spread the full
      0.15 bonus is added, and from a spread of 0.15 on there is none. */
  lemma EnsembleConfidenceAgreement(lstm: real, xgb: real, gnn: real, narrow: real, wide: real)
    requires narrow <= wide
    ensures EnsembleConfidence(lstm, xgb, gnn, wide) <= EnsembleConfidence(lstm, xgb, gnn, narrow)
    ensures EnsembleConfidence(lstm, xgb, gnn, 0.0) ==
              MinReal(0.95, lstm * LstmWeight + xgb * XgbWeight + gnn * GnnWeight + 0.15)
    ensures MinReal(0.95, lstm * LstmWeight + xgb * XgbWeight + gnn * GnnWeight) <=
              EnsembleConfidence(lstm, xgb, gnn, narrow)
  {
  }

  const SevereActions: seq<string> := [
    "\U{1F6A8} IMMEDIATE: Evacuate to designated safe zones",
    "\U{1F3E5} Prepare emergency medical supplies",
    "\U{1F4F1} Keep emergency contacts accessible",
    "\U{1F697} Clear evacuation routes",
    "\U{1F4A7} Move to higher ground immediately"]

  const HighActions: seq<string> := [
    "\U{26A0}\U{FE0F} Monitor official alerts continuously",
    "\U{1F392} Prepare emergency go-bag",
    "\U{1F4CD} Identify nearest evacuation centers",
    "\U{1F50C} Charge all communication devices",
    "\U{1F48A} Stock essential medications"]

  const MediumActions: seq<string> := [
    "\U{1F4FB} Stay tuned to weather updates",
    "\U{1F3E0} Secure outdoor items",
    "\U{1F4CB} Review family emergency plan",
    "\U{1F526} Check emergency supplies",
    "\U{1F6B0} Store drinking water"]

  const LowActions: seq<string> := [
    "\U{2705} Normal precautions apply",
    "\U{1F4F1} Keep weather app notifications on",
    "\U{1F5D3}\U{FE0F} Be aware of seasonal patterns"]

  /** The actions for a risk level name; an unknown name gets the Low list. */
  function RecommendedActions(level: string): (r: seq<string>)
    ensures level !in {"Severe", "High", "Medium"} ==> r == LowActions
    ensures |r| == (if level in {"Severe", "High", "Medium"} then 5 else 3)
  {
    if level == "Severe" then SevereActions
    else if level == "High" then HighActions
    else if level == "Medium" then MediumActions
    else LowActions
  }

  /** The level names the ensemble produces select their own lists: three
      actions for Low and five for the others. */
  lemma ActionsOfRiskLevel(c: RiskClass)
    ensures |RecommendedActions(RiskName(c))| == (if c == Low then 3 else 5)
  {
    match c
    case Low => assert RecommendedActions("Low") == LowActions;
    case Medium => assert RecommendedActions("Medium") == MediumActions;
    case High => assert RecommendedActions("High") == HighActions;
    case Severe => assert RecommendedActions("Severe") == SevereActions;
  }

  // ---------------------------------------------------------------------
  // Inputs, data quality and limitations
  // ---------------------------------------------------------------------

  /** The weather fields the predictor reads; absent fields are missing keys. */
  datatype WeatherData = WeatherData(rainfallHourly: Option<seq<real>>,
                                     dischargeHourly: Option<seq<real>>,
                                     soilMoisture: Option<real>)

  /** The location fields the predictor reads. */
  datatype Site = Site(elevation: Option<real>, slope: Option<real>, distanceToRiver: Option<real>,
                       drainageDensity: Option<real>, urbanization: Option<real>)

  /** `weather_data.get(key)` is truthy. */
  predicate HasRain(w: WeatherData) {
    w.rainfallHourly.Some? && w.rainfallHourly.value != []
  }

  predicate HasDischarge(w: WeatherData) {
    w.dischargeHourly.Some? && w.dischargeHourly.value != []
  }

  predicate HasSoil(w: WeatherData) {
    w.soilMoisture.Some? && w.soilMoisture.value != 0.0
  }

  function RainHours(w: WeatherData): nat {
    |w.rainfallHourly.GetOr([])|
  }

  /** The data-quality score: 0.5, plus 0.2 for rainfall, 0.15 for
      discharge, 0.1 for soil moisture and 0.05 for three days of rainfall,
      capped at 1. */
  function DataQuality(w: WeatherData): real {
    MinReal(1.0, 0.5 + (if HasRain(w) then 0.2 else 0.0) + (if HasDischarge(w) then 0.15 else 0.0)
                 + (if HasSoil(w) then 0.1 else 0.0) + (if RainHours(w) >= 72 then 0.05 else 0.0))
  }

  /** The score accumulated one increment at a time. */
  method AssessDataQuality(w: WeatherData) returns (score: real)
    ensures score == DataQuality(w)
  {
    score := 0.5;
    if HasRain(w) {
      score := score + 0.2;
    }
    if HasDischarge(w) {
      score := score + 0.15;
    }
    if HasSoil(w) {
      score := score + 0.1;
    }
    if RainHours(w) >= 72 {
      score := score + 0.05;
    }
    score := MinReal(1.0, score);
  }

  /** The score in hundredths: every increment is a whole number of them. */
  function QualityHundredths(w: WeatherData): int {
    Min(100, 50 + (if HasRain(w) then 20 else 0) + (if HasDischarge(w) then 15 else 0)
             + (if HasSoil(w) then 10 else 0) + (if RainHours(w) >= 72 then 5 else 0))
  }

  /** The score is a whole number of hundredths, so reporting it to two
      places leaves it unchanged. */
  lemma DataQualityReported(w: WeatherData)
    ensures Round(DataQuality(w), 2) == DataQuality(w)
  {
    ScaleValues();
    assert DataQuality(w) == QualityHundredths(w) as real / Scale(2);
    RoundExact(QualityHundredths(w), 2);
  }

  /** The score lies in [0.5, 1]; it is 1 exactly when all data is present
      with three days of rainfall, and 0.5 exactly when none is. */
  lemma DataQualityBounds(w: WeatherData)
    ensures 0.5 <= DataQuality(w) <= 1.0
    ensures DataQuality(w) == 1.0 <==> RainHours(w) >= 72 && HasDischarge(w) && HasSoil(w)
    ensures DataQuality(w) == 0.5 <==> !HasRain(w) && !HasDischarge(w) && !HasSoil(w)
  {
    if RainHours(w) > 0 {
      assert HasRain(w);
    }
  }

  const NoDischarge: string := "River discharge data not available"
  const NoNetwork: string := "Upstream station network data limited"
  const ShortRainfall: string := "Limited historical rainfall data (<48 hours)"
  const NoSoil: string := "Soil moisture data estimated"
  const AdequateCoverage: string := "Data coverage adequate for prediction"

  predicate HasNetwork(network: Option<seq<Station>>) {
    network.Some? && network.value != []
  }

  /** The limitations found, in the order they are checked. */
  function Gaps(w: WeatherData, network: Option<seq<Station>>): seq<string> {
    (if !HasDischarge(w) then [NoDischarge] else [])
    + (if !HasNetwork(network) then [NoNetwork] else [])
    + (if RainHours(w) < 48 then [ShortRainfall] else [])
    + (if !HasSoil(w) then [NoSoil] else [])
  }

  function Limitations(w: WeatherData, network: Option<seq<Station>>): seq<string> {
    var g := Gaps(w, network);
    if g == [] then [AdequateCoverage] else g
  }

  /** The list built by appending each limitation that applies. */
  method GetLimitations(w: WeatherData, network: Option<seq<Station>>) returns (r: seq<string>)
    ensures r == Limitations(w, network)
  {
    ghost var g1 := if !HasDischarge(w) then [NoDischarge] else [];
    ghost var g2 := if !HasNetwork(network) then [NoNetwork] else [];
    ghost var g3 := if RainHours(w) < 48 then [ShortRainfall] else [];
    ghost var g4 := if !HasSoil(w) then [NoSoil] else [];
    r := [];
    if !HasDischarge(w) {
      r := r + [NoDischarge];
    }
    assert r == g1;
    if !HasNetwork(network) {
      r := r + [NoNetwork];
    }
    assert r == g1 + g2;
    if RainHours(w) < 48 {
      r := r + [ShortRainfall];
    }
    assert r == g1 + g2 + g3;
    if !HasSoil(w) {
      r := r + [NoSoil];
    }
    assert r == Gaps(w, network) == g1 + g2 + g3 + g4;
    if r == [] {
      r := [AdequateCoverage];
    }
  }

  /** The list is never empty; each limitation is listed exactly when its
      condition holds, and adequate coverage exactly when none does. */
  lemma LimitationsProperties(w: WeatherData, network: Option<seq<Station>>)
    ensures var r := Limitations(w, network);
            && |r| >= 1
            && (NoDischarge in r <==> !HasDischarge(w))
            && (NoNetwork in r <==> !HasNetwork(network))
            && (ShortRainfall in r <==> RainHours(w) < 48)
            && (NoSoil in r <==> !HasSoil(w))
            && (r == [AdequateCoverage] <==>
                  HasDischarge(w) && HasNetwork(network) && RainHours(w) >= 48 && HasSoil(w))
  {
  }

  /** The limitations come in the order of the checks, each at most once. */
  lemma LimitationsInOrder(w: WeatherData, network: Option<seq<Station>>)
    ensures var r := Limitations(w, network);
            && |r| <= 4
            && RankedAscending(r)
  {
    LimitationRanks();
    var a1: seq<string> := if !HasDischarge(w) then [NoDischarge] else [];
    var a2 := a1 + (if !HasNetwork(network) then [NoNetwork] else []);
    if !HasNetwork(network) { AppendRanked(a1, NoNetwork); }
    var a3 := a2 + (if RainHours(w) < 48 then [ShortRainfall] else []);
    if RainHours(w) < 48 { AppendRanked(a2, ShortRainfall); }
    var a4 := a3 + (if !HasSoil(w) then [NoSoil] else []);
    if !HasSoil(w) { AppendRanked(a3, NoSoil); }
    assert a4 == Gaps(w, network);
  }

  /** Each entry ranks strictly below every later one. */
  predicate RankedAscending(r: seq<string>) {
    forall i, j :: 0 <= i < j < |r| ==> LimitationRank(r[i]) < LimitationRank(r[j])
  }

  lemma AppendRanked(a: seq<string>, l: string)
    requires RankedAscending(a)
    requires forall i :: 0 <= i < |a| ==> LimitationRank(a[i]) < LimitationRank(l)
    ensures RankedAscending(a + [l])
  {
    var b := a + [l];
    forall i, j | 0 <= i < j < |b| ensures LimitationRank(b[i]) < LimitationRank(b[j]) {
      if j < |a| {
        assert b[i] == a[i] && b[j] == a[j];
      } else {
        assert b[i] == a[i];
      }
    }
  }

  lemma LimitationRanks()
    ensures LimitationRank(NoDischarge) == 0 && LimitationRank(NoNetwork) == 1
    ensures LimitationRank(ShortRainfall) == 2 && LimitationRank(NoSoil) == 3
    ensures LimitationRank(AdequateCoverage) == 4
  {
    assert |NoDischarge| == 34 && |NoNetwork| == 37 && |ShortRainfall| == 44;
    assert |NoSoil| == 28 && |AdequateCoverage| == 37 && AdequateCoverage[0] != NoNetwork[0];
  }

  /** A limitation's place in the order the checks append them. */
  function LimitationRank(l: string): nat {
    if l == NoDischarge then 0
    else if l == NoNetwork then 1
    else if l == ShortRainfall then 2
    else if l == NoSoil then 3
    else 4
  }

  // ---------------------------------------------------------------------
  // The ensemble prediction
  // ---------------------------------------------------------------------

  /** The rainfall series: `rainfall_hourly`, or 24 dry hours when absent. */
  function RainSeries(w: WeatherData): seq<real> {
    w.rainfallHourly.GetOr(Zeros(24))
  }

  /** The rain of the last 24 hours, or of the whole series when it is shorter. */
  function Rainfall24h(rain: seq<real>): (r: real)
    ensures r == Sum(Last(rain, 24))
  {
    if |rain| >= 24 then Sum(Last(rain, 24)) else Sum(rain)
  }

  /** The peak of the last six hours, 0 without rainfall. */
  function RainfallIntensity(rain: seq<real>): (r: real)
    ensures rain == [] ==> r == 0.0
    ensures rain != [] ==> r == MaxOf(Last(rain, 6))
  {
    if rain != [] then MaxOf(Last(rain, 6)) else 0.0
  }

  /** The tabular features handed to the XGBoost score: the rainfall of
      the last 24 hours (of the whole series when shorter), the peak of the
      last six hours (0 without rainfall), and the given values with their
      defaults. */
  function XgbFeatures(site: Site, w: WeatherData, floodFrequency: Option<real>): (f: map<string, real>)
    ensures HasAllFeatures(f) && "slope" in f
    ensures f["rainfall_24h"] == Rainfall24h(RainSeries(w))
    ensures f["rainfall_intensity"] == RainfallIntensity(RainSeries(w))
    ensures f["soil_moisture"] == if w.soilMoisture.Some? then w.soilMoisture.value else 50.0
    ensures f["elevation"] == if site.elevation.Some? then site.elevation.value else 100.0
    ensures f["slope"] == if site.slope.Some? then site.slope.value else 5.0
    ensures f["distance_to_river"] == if site.distanceToRiver.Some? then site.distanceToRiver.value else 1000.0
    ensures f["historical_flood_freq"] == if floodFrequency.Some? then floodFrequency.value else 0.1
    ensures f["drainage_density"] == if site.drainageDensity.Some? then site.drainageDensity.value else 0.5
    ensures f["urbanization"] == if site.urbanization.Some? then site.urbanization.value else 0.3
  {
    map["rainfall_24h" := Rainfall24h(RainSeries(w)),
        "rainfall_intensity" := RainfallIntensity(RainSeries(w)),
        "soil_moisture" := w.soilMoisture.GetOr(50.0),
        "elevation" := site.elevation.GetOr(100.0),
        "slope" := site.slope.GetOr(5.0),
        "distance_to_river" := site.distanceToRiver.GetOr(1000.0),
        "historical_flood_freq" := floodFrequency.GetOr(0.1),
        "drainage_density" := site.drainageDensity.GetOr(0.5),
        "urbanization" := site.urbanization.GetOr(0.3)]
  }

  datatype Prediction = Prediction(probability: real, riskLevel: RiskClass, confidence: real,
                                   horizon6: real, horizon12: real, horizon24: real,
                                   lstm: LstmResult, xgb: XgbResult, gnn: GnnResult,
                                   actions: seq<string>, dataQuality: real,
                                   limitations: seq<string>)

  /** The ensemble's vote over the three component outputs as they report
      them (rounded): the level is chosen on the unrounded vote, which is
      then reported to three places, and the blended 6- and 12-hour
      horizons likewise. */
  function Ensemble(lstm: LstmResult, xgb: XgbResult, gnn: GnnResult, w: WeatherData,
                    network: Option<seq<Station>>, spread: real): (p: Prediction)
    ensures p.lstm == lstm && p.xgb == xgb && p.gnn == gnn
    ensures var vote := EnsembleProbability(lstm.p24, xgb.riskScore, gnn.propagation);
            && p.riskLevel == RiskLevel(vote)
            && p.probability == Round(vote, 3)
            && -0.0005 <= p.probability - vote <= 0.0005
    ensures p.horizon24 == p.probability
    ensures p.horizon6 == Round(lstm.p6 * 0.9 + xgb.riskScore * 0.1, 3)
    ensures p.horizon12 == Round(lstm.p12 * 0.7 + xgb.riskScore * 0.3, 3)
    ensures p.confidence == Round(EnsembleConfidence(lstm.confidence, xgb.confidence, gnn.confidence, spread), 2)
    ensures p.confidence <= 0.95
    ensures p.actions == RecommendedActions(RiskName(p.riskLevel))
    ensures |p.actions| == (if p.riskLevel == Low then 3 else 5)
    ensures p.dataQuality == DataQuality(w) && 0.5 <= p.dataQuality <= 1.0
    ensures p.limitations == Limitations(w, network) && |p.limitations| >= 1
  {
    var vote := EnsembleProbability(lstm.p24, xgb.riskScore, gnn.propagation);
    var level := RiskLevel(vote);
    var confidence := EnsembleConfidence(lstm.confidence, xgb.confidence, gnn.confidence, spread);
    LimitationsProperties(w, network);
    DataQualityBounds(w);
    DataQualityReported(w);
    ActionsOfRiskLevel(level);
    ScaleValues();
    RoundedCapped(confidence);
    Prediction(Round(vote, 3), level, Round(confidence, 2),
               Round(lstm.p6 * 0.9 + xgb.riskScore * 0.1, 3), Round(lstm.p12 * 0.7 + xgb.riskScore * 0.3, 3),
               Round(vote, 3), lstm, xgb, gnn, RecommendedActions(RiskName(level)), Round(DataQuality(w), 2),
               Limitations(w, network))
  }

  /** The ensemble prediction. `floodFrequency` is the historical record's
      flood frequency (None without a record), `decay` the distance decay
      and `spread` the standard deviation of the three model outputs. */
  function Predict(site: Site, w: WeatherData, floodFrequency: Option<real>,
                   network: Option<seq<Station>>, decay: real -> real, spread: real): (p: Prediction)
    ensures p.lstm == LstmPredict(RainSeries(w), w.dischargeHourly.GetOr([]))
    ensures p.xgb == XgbPredict(XgbFeatures(site, w, floodFrequency))
    ensures p.gnn == GnnPredict(network.GetOr([]), decay)
    ensures p == Ensemble(p.lstm, p.xgb, p.gnn, w, network, spread)
    ensures p.probability == Round(EnsembleProbability(p.lstm.p24, p.xgb.riskScore, p.gnn.propagation), 3)
  {
    Ensemble(LstmPredict(RainSeries(w), w.dischargeHourly.GetOr([])),
             XgbPredict(XgbFeatures(site, w, floodFrequency)),
             GnnPredict(network.GetOr([]), decay), w, network, spread)
  }

  lemma RoundedCapped(c: real)
    requires c <= 0.95
    ensures Round(c, 2) <= 0.95
  {
    ScaleValues();
    RoundMonotone(c, 0.95, 2);
    RoundExact(95, 2);
  }

  /** With non-negative readings, features in their natural ranges, station
      risks in [0, 1] and a non-negative decay, the reported ensemble
      probability is in [0, 1]. */
  lemma PredictProbabilityInUnit(site: Site, w: WeatherData, floodFrequency: Option<real>,
                                 network: Option<seq<Station>>, decay: real -> real, spread: real)
    requires NaturalInputs(site, w, floodFrequency, network, decay)
    ensures 0.0 <= Predict(site, w, floodFrequency, network, decay, spread).probability <= 1.0
  {
    ComponentsInUnit(site, w, floodFrequency, network, decay);
    var p := Predict(site, w, floodFrequency, network, decay, spread);
    RoundedInUnit(EnsembleProbability(p.lstm.p24, p.xgb.riskScore, p.gnn.propagation));
  }

  /** Non-negative readings, features in their natural ranges, station risks
      in [0, 1] and a non-negative decay. */
  ghost predicate NaturalInputs(site: Site, w: WeatherData, floodFrequency: Option<real>,
                          network: Option<seq<Station>>, decay: real -> real)
  {
    && NonNegative(RainSeries(w)) && NonNegative(w.dischargeHourly.GetOr([]))
    && InNaturalRange(XgbFeatures(site, w, floodFrequency))
    && (forall i :: 0 <= i < |network.GetOr([])| ==>
          0.0 <= network.GetOr([])[i].floodRisk.GetOr(0.0) <= 1.0)
    && (forall x :: 0.0 <= decay(x))
  }

  /** Under these assumptions each component output is in [0, 1]. */
  lemma ComponentsInUnit(site: Site, w: WeatherData, floodFrequency: Option<real>,
                         network: Option<seq<Station>>, decay: real -> real)
    requires NaturalInputs(site, w, floodFrequency, network, decay)
    ensures 0.0 <= LstmPredict(RainSeries(w), w.dischargeHourly.GetOr([])).p24 <= 1.0
    ensures 0.0 <= XgbPredict(XgbFeatures(site, w, floodFrequency)).riskScore <= 1.0
    ensures 0.0 <= GnnPredict(network.GetOr([]), decay).propagation <= 1.0
  {
    LstmHorizonsOrdered(RainSeries(w), w.dischargeHourly.GetOr([]));
    XgbScoreInUnit(XgbFeatures(site, w, floodFrequency));
    GnnPropagationInRange(network.GetOr([]), decay);
  }

  /** Features in their natural ranges give a reported risk score in [0, 1]. */
  lemma XgbScoreInUnit(f: map<string, real>)
    requires InNaturalRange(f)
    ensures 0.0 <= XgbPredict(f).riskScore <= 1.0
  {
    RiskScoreInUnit(f);
    RoundedInUnit(RiskScore(f));
  }

  /** Component outputs in [0, 1] give a reported ensemble probability in [0, 1]. */
  lemma EnsembleProbabilityInUnit(lstm: LstmResult, xgb: XgbResult, gnn: GnnResult, w: WeatherData,
                                  network: Option<seq<Station>>, spread: real)
    requires 0.0 <= lstm.p24 <= 1.0 && 0.0 <= xgb.riskScore <= 1.0 && 0.0 <= gnn.propagation <= 1.0
    ensures 0.0 <= Ensemble(lstm, xgb, gnn, w, network, spread).probability <= 1.0
  {
    RoundedInUnit(EnsembleProbability(lstm.p24, xgb.riskScore, gnn.propagation));
  }

  lemma RoundedInUnit(x: real)
    requires 0.0 <= x <= 1.0
    ensures 0.0 <= Round(x, 3) <= 1.0
  {
    ScaleValues();
    RoundKeepsBounds(x, 0, 1000, 3);
  }

}
