/** The smart alert engine: multi-condition scoring of a flood prediction, an
    anomaly report and a rainfall forecast into a severity and an alert type,
    the alert record with its instructions and SMS text, and the engine's
    state: the table of active alerts keyed by rounded location (in
    insertion order, as a Python dict keeps it) and the capped alert history. */
module SmartAlerts {
  import opened Text

  // ---------------------------------------------------------------------
  // Severities and alert types
  // ---------------------------------------------------------------------

  datatype Severity = Info | Watch | Warning | Severe | Critical

  /** Position in the escalation order INFO < WATCH < WARNING < SEVERE < CRITICAL. */
  function SeverityIndex(s: Severity): nat {
    match s
    case Info => 0
    case Watch => 1
    case Warning => 2
    case Severe => 3
    case Critical => 4
  }

  function SeverityName(s: Severity): string {
    match s
    case Info => "info"
    case Watch => "watch"
    case Warning => "warning"
    case Severe => "severe"
    case Critical => "critical"
  }

  datatype AlertType =
    | Flood | FlashFlood | RiverOverflow | Storm | HeavyRainfall
    | WaterLevel | Evacuation | AllClear

  // ---------------------------------------------------------------------
  // Thresholds and regional calibration
  // ---------------------------------------------------------------------

  const FloodProbabilityHigh: real := 0.72
  const AnomalyScoreTrigger: real := 0.6
  const Rainfall90thPercentile: real := 50.0
  const ConfidenceMinimum: real := 0.6
  const LowConfidenceFactor: real := 0.7
  const HistoryCapacity: nat := 1000

  const RegionalFactors: map<string, real> :=
    map["default" := 1.0, "coastal" := 1.2, "riverine" := 1.15, "urban" := 1.1, "hilly" := 0.95]

  /** The calibration factor of a region; a missing region type means
      "default", and an unknown one falls back to 1.0. */
  function CalibrationFactor(regionType: Option<string>): (f: real)
    ensures 0.95 <= f <= 1.2
    ensures regionType.None? ==> f == 1.0
    ensures regionType.Some? && regionType.value !in RegionalFactors ==> f == 1.0
  {
    var name := regionType.GetOr("default");
    if name in RegionalFactors then RegionalFactors[name] else 1.0
  }

  /** The flood-probability threshold after calibration. */
  function AdjustedThreshold(regionType: Option<string>): real {
    FloodProbabilityHigh / CalibrationFactor(regionType)
  }

  // ---------------------------------------------------------------------
  // Conditions and the alert score
  // ---------------------------------------------------------------------

  datatype ConditionKind =
    HighFloodProbability | AnomalyDetected | HeavyRainfallForecast | EarlyWarningSignals

  function Weight(k: ConditionKind): real {
    match k
    case HighFloodProbability => 0.35
    case AnomalyDetected => 0.25
    case HeavyRainfallForecast => 0.25
    case EarlyWarningSignals => 0.15
  }

  /** The order in which the engine tests the conditions. */
  function KindRank(k: ConditionKind): nat {
    match k
    case HighFloodProbability => 0
    case AnomalyDetected => 1
    case HeavyRainfallForecast => 2
    case EarlyWarningSignals => 3
  }

  datatype Condition = Condition(kind: ConditionKind, value: real, threshold: real, weight: real)

  predicate Met(cs: seq<Condition>, k: ConditionKind) {
    exists i :: 0 <= i < |cs| && cs[i].kind == k
  }

  function When(b: bool, c: Condition): seq<Condition> {
    if b then [c] else []
  }

  /** The conditions met, each with its value, threshold and weight, in test order. */
  function ConditionsMet(floodProb: real, anomalyScore: real, rainfall24h: real,
                         warningCount: nat, threshold: real): (cs: seq<Condition>)
    ensures |cs| <= 4
  {
    When(floodProb > threshold,
         Condition(HighFloodProbability, floodProb, threshold, 0.35))
    + When(anomalyScore > AnomalyScoreTrigger,
           Condition(AnomalyDetected, anomalyScore, AnomalyScoreTrigger, 0.25))
    + When(rainfall24h > Rainfall90thPercentile,
           Condition(HeavyRainfallForecast, rainfall24h, Rainfall90thPercentile, 0.25))
    + When(warningCount > 0,
           Condition(EarlyWarningSignals, warningCount as real, 1.0, 0.15))
  }

  /** Each condition appears exactly when its input exceeds its (calibrated)
      threshold. */
  lemma ConditionsMetExactly(floodProb: real, anomalyScore: real, rainfall24h: real,
                             warningCount: nat, threshold: real)
    ensures var cs := ConditionsMet(floodProb, anomalyScore, rainfall24h, warningCount, threshold);
            && (Met(cs, HighFloodProbability) <==> floodProb > threshold)
            && (Met(cs, AnomalyDetected) <==> anomalyScore > AnomalyScoreTrigger)
            && (Met(cs, HeavyRainfallForecast) <==> rainfall24h > Rainfall90thPercentile)
            && (Met(cs, EarlyWarningSignals) <==> warningCount > 0)
  {
    var c1 := When(floodProb > threshold,
                   Condition(HighFloodProbability, floodProb, threshold, 0.35));
    var c2 := When(anomalyScore > AnomalyScoreTrigger,
                   Condition(AnomalyDetected, anomalyScore, AnomalyScoreTrigger, 0.25));
    var c3 := When(rainfall24h > Rainfall90thPercentile,
                   Condition(HeavyRainfallForecast, rainfall24h, Rainfall90thPercentile, 0.25));
    var c4 := When(warningCount > 0,
                   Condition(EarlyWarningSignals, warningCount as real, 1.0, 0.15));
    MetAppend(c1, c2);
    MetAppend(c1 + c2, c3);
    MetAppend(c1 + c2 + c3, c4);
    MetWhen(floodProb > threshold, c1, HighFloodProbability);
    MetWhen(anomalyScore > AnomalyScoreTrigger, c2, AnomalyDetected);
    MetWhen(rainfall24h > Rainfall90thPercentile, c3, HeavyRainfallForecast);
    MetWhen(warningCount > 0, c4, EarlyWarningSignals);
    assert ConditionsMet(floodProb, anomalyScore, rainfall24h, warningCount, threshold)
        == c1 + c2 + c3 + c4;
  }

  predicate InTestOrder(cs: seq<Condition>) {
    forall i, j :: 0 <= i < j < |cs| ==> KindRank(cs[i].kind) < KindRank(cs[j].kind)
  }

  predicate Weighted(cs: seq<Condition>) {
    forall i :: 0 <= i < |cs| ==> cs[i].weight == Weight(cs[i].kind)
  }

  predicate RankedBelow(cs: seq<Condition>, r: nat) {
    forall i :: 0 <= i < |cs| ==> KindRank(cs[i].kind) < r
  }

  /** Testing one more condition, of a later kind, keeps the list in order. */
  lemma WhenKeepsOrder(cs: seq<Condition>, r: nat, b: bool, c: Condition)
    requires InTestOrder(cs) && Weighted(cs) && RankedBelow(cs, r)
    requires c.weight == Weight(c.kind) && r == KindRank(c.kind)
    ensures var cs' := cs + When(b, c);
            InTestOrder(cs') && Weighted(cs') && RankedBelow(cs', r + 1)
  {
    var cs' := cs + When(b, c);
    assert forall i :: 0 <= i < |cs| ==> cs'[i] == cs[i];
  }

  lemma FirstWhenInOrder(b: bool, c: Condition)
    requires KindRank(c.kind) == 0 && c.weight == Weight(c.kind)
    ensures var cs := When(b, c);
            InTestOrder(cs) && Weighted(cs) && RankedBelow(cs, 1)
  {
  }

  /** The first two, three and four conditions of successive kinds, each
      evaluated in turn, stay in order. */
  lemma TwoWhensInOrder(b1: bool, c1: Condition, b2: bool, c2: Condition)
    requires KindRank(c1.kind) == 0 && KindRank(c2.kind) == 1
    requires c1.weight == Weight(c1.kind) && c2.weight == Weight(c2.kind)
    ensures var cs := When(b1, c1) + When(b2, c2);
            InTestOrder(cs) && Weighted(cs) && RankedBelow(cs, 2)
  {
    FirstWhenInOrder(b1, c1);
    WhenKeepsOrder(When(b1, c1), 1, b2, c2);
  }

  lemma ThreeWhensInOrder(b1: bool, c1: Condition, b2: bool, c2: Condition, b3: bool, c3: Condition)
    requires KindRank(c1.kind) == 0 && KindRank(c2.kind) == 1 && KindRank(c3.kind) == 2
    requires c1.weight == Weight(c1.kind) && c2.weight == Weight(c2.kind)
    requires c3.weight == Weight(c3.kind)
    ensures var cs := When(b1, c1) + When(b2, c2) + When(b3, c3);
            InTestOrder(cs) && Weighted(cs) && RankedBelow(cs, 3)
  {
    TwoWhensInOrder(b1, c1, b2, c2);
    WhenKeepsOrder(When(b1, c1) + When(b2, c2), 2, b3, c3);
  }

  lemma WhensInOrder(b1: bool, c1: Condition, b2: bool, c2: Condition,
                     b3: bool, c3: Condition, b4: bool, c4: Condition)
    requires KindRank(c1.kind) == 0 && KindRank(c2.kind) == 1
    requires KindRank(c3.kind) == 2 && KindRank(c4.kind) == 3
    requires c1.weight == Weight(c1.kind) && c2.weight == Weight(c2.kind)
    requires c3.weight == Weight(c3.kind) && c4.weight == Weight(c4.kind)
    ensures var cs := When(b1, c1) + When(b2, c2) + When(b3, c3) + When(b4, c4);
            InTestOrder(cs) && Weighted(cs)
  {
    ThreeWhensInOrder(b1, c1, b2, c2, b3, c3);
    WhenKeepsOrder(When(b1, c1) + When(b2, c2) + When(b3, c3), 3, b4, c4);
  }

  /** The conditions met come at most once each, in test order, each with
      its own weight. */
  lemma ConditionsInOrder(floodProb: real, anomalyScore: real, rainfall24h: real,
                          warningCount: nat, threshold: real)
    ensures var cs := ConditionsMet(floodProb, anomalyScore, rainfall24h, warningCount, threshold);
            InTestOrder(cs) && Weighted(cs)
  {
    WhensInOrder(floodProb > threshold, Condition(HighFloodProbability, floodProb, threshold, 0.35),
                 anomalyScore > AnomalyScoreTrigger,
                 Condition(AnomalyDetected, anomalyScore, AnomalyScoreTrigger, 0.25),
                 rainfall24h > Rainfall90thPercentile,
                 Condition(HeavyRainfallForecast, rainfall24h, Rainfall90thPercentile, 0.25),
                 warningCount > 0, Condition(EarlyWarningSignals, warningCount as real, 1.0, 0.15));
  }

  /** A singleton-or-empty list meets only its own kind, and only when present. */
  lemma MetWhen(b: bool, cs: seq<Condition>, k: ConditionKind)
    requires |cs| <= 1 && (b <==> |cs| == 1) && (b ==> cs[0].kind == k)
    ensures forall k' :: Met(cs, k') <==> b && k' == k
  {
    if b { assert cs[0].kind == k; }
  }

  lemma MetAppend(a: seq<Condition>, b: seq<Condition>)
    ensures forall k :: Met(a + b, k) <==> Met(a, k) || Met(b, k)
  {
    forall k
      ensures Met(a + b, k) <==> Met(a, k) || Met(b, k)
    {
      if Met(a + b, k) {
        var i :| 0 <= i < |a + b| && (a + b)[i].kind == k;
        if i >= |a| { assert b[i - |a|].kind == k; }
      }
      if Met(a, k) {
        var i :| 0 <= i < |a| && a[i].kind == k;
        assert (a + b)[i].kind == k;
      }
      if Met(b, k) {
        var i :| 0 <= i < |b| && b[i].kind == k;
        assert (a + b)[|a| + i].kind == k;
      }
    }
  }

  function WeightSum(cs: seq<Condition>): real
    decreases |cs|
  {
    if cs == [] then 0.0 else WeightSum(cs[..|cs| - 1]) + cs[|cs| - 1].weight
  }

  lemma {:induction false} WeightSumAppend(a: seq<Condition>, b: seq<Condition>)
    ensures WeightSum(a + b) == WeightSum(a) + WeightSum(b)
    decreases |b|
  {
    if b != [] {
      var ab := a + b;
      WeightSumAppend(a, b[..|b| - 1]);
      assert ab[..|ab| - 1] == a + b[..|b| - 1];
      assert ab[|ab| - 1] == b[|b| - 1];
      calc {
        WeightSum(ab);
        WeightSum(ab[..|ab| - 1]) + ab[|ab| - 1].weight;
        WeightSum(a + b[..|b| - 1]) + b[|b| - 1].weight;
        WeightSum(a) + WeightSum(b[..|b| - 1]) + b[|b| - 1].weight;
        WeightSum(a) + WeightSum(b);
      }
    } else {
      assert a + b == a;
    }
  }

  lemma WeightSumWhen(b: bool, cs: seq<Condition>)
    requires |cs| <= 1 && (b <==> |cs| == 1)
    ensures WeightSum(cs) == if b then cs[0].weight else 0.0
  {
    if b { assert cs[..0] == []; }
  }

  /** The weighted score, reduced when the prediction's confidence is low. */
  function AlertScore(cs: seq<Condition>, confidence: real): real {
    var raw := WeightSum(cs);
    if confidence < ConfidenceMinimum then raw * LowConfidenceFactor else raw
  }

  function WeightIf(b: bool, k: ConditionKind): real {
    if b then Weight(k) else 0.0
  }

  /** The raw weighted sum of a condition list, condition by condition. */
  lemma WeightSumOfConditions(floodProb: real, anomalyScore: real, rainfall24h: real,
                              warningCount: nat, threshold: real)
    ensures var cs := ConditionsMet(floodProb, anomalyScore, rainfall24h, warningCount, threshold);
            var b1 := floodProb > threshold;
            var b2 := anomalyScore > AnomalyScoreTrigger;
            var b3 := rainfall24h > Rainfall90thPercentile;
            var b4 := warningCount > 0;
            && WeightSum(cs) == WeightIf(b1, HighFloodProbability) + WeightIf(b2, AnomalyDetected)
                              + WeightIf(b3, HeavyRainfallForecast) + WeightIf(b4, EarlyWarningSignals)
            && (|cs| == 0 <==> !b1 && !b2 && !b3 && !b4)
  {
    var c1 := When(floodProb > threshold,
                   Condition(HighFloodProbability, floodProb, threshold, 0.35));
    var c2 := When(anomalyScore > AnomalyScoreTrigger,
                   Condition(AnomalyDetected, anomalyScore, AnomalyScoreTrigger, 0.25));
    var c3 := When(rainfall24h > Rainfall90thPercentile,
                   Condition(HeavyRainfallForecast, rainfall24h, Rainfall90thPercentile, 0.25));
    var c4 := When(warningCount > 0,
                   Condition(EarlyWarningSignals, warningCount as real, 1.0, 0.15));
    WeightSumAppend(c1, c2);
    WeightSumAppend(c1 + c2, c3);
    WeightSumAppend(c1 + c2 + c3, c4);
    WeightSumWhen(floodProb > threshold, c1);
    WeightSumWhen(anomalyScore > AnomalyScoreTrigger, c2);
    WeightSumWhen(rainfall24h > Rainfall90thPercentile, c3);
    WeightSumWhen(warningCount > 0, c4);
    var cs := ConditionsMet(floodProb, anomalyScore, rainfall24h, warningCount, threshold);
    assert cs == c1 + c2 + c3 + c4;
    assert WeightSum(cs) == WeightSum(c1) + WeightSum(c2) + WeightSum(c3) + WeightSum(c4);
    assert |cs| == |c1| + |c2| + |c3| + |c4|;
  }

  /** The score is the sum of the weights of the conditions met (at most 1.0),
      times 0.7 under low confidence; it is 0 exactly when nothing was met. */
  lemma ScoreOfConditions(floodProb: real, anomalyScore: real, rainfall24h: real,
                          warningCount: nat, threshold: real, confidence: real)
    ensures var cs := ConditionsMet(floodProb, anomalyScore, rainfall24h, warningCount, threshold);
            var raw := WeightSum(cs);
            && AlertScore(cs, confidence) == (if confidence < 0.6 then raw * 0.7 else raw)
            && 0.0 <= AlertScore(cs, confidence) <= 1.0
            && (AlertScore(cs, confidence) == 0.0 <==> |cs| == 0)
  {
    WeightSumOfConditions(floodProb, anomalyScore, rainfall24h, warningCount, threshold);
  }

  // ---------------------------------------------------------------------
  // Severity and alert type
  // ---------------------------------------------------------------------

  /** Severity from score and number of conditions met: each band holds
      exactly when its rule fires and no band above it does. */
  function DetermineSeverity(score: real, count: nat): (s: Severity)
    ensures s == Critical <==> score >= 0.75 && count >= 3
    ensures s == Severe <==> && !(score >= 0.75 && count >= 3)
                             && (score >= 0.6 || (score >= 0.5 && count >= 3))
    ensures s == Warning <==> && !(score >= 0.75 && count >= 3)
                              && !(score >= 0.6 || (score >= 0.5 && count >= 3))
                              && (score >= 0.4 || count >= 2)
    ensures s == Watch <==> && !(score >= 0.75 && count >= 3)
                            && !(score >= 0.6 || (score >= 0.5 && count >= 3))
                            && !(score >= 0.4 || count >= 2)
                            && (score >= 0.2 || count >= 1)
    ensures s == Info <==> score < 0.2 && count == 0
    ensures count >= 1 ==> SeverityIndex(s) >= 1
    ensures count >= 2 ==> SeverityIndex(s) >= 2
  {
    if score >= 0.75 && count >= 3 then Critical
    else if score >= 0.6 || (score >= 0.5 && count >= 3) then Severe
    else if score >= 0.4 || count >= 2 then Warning
    else if score >= 0.2 || count >= 1 then Watch
    else Info
  }

  /** More score or more conditions never lowers the severity. */
  lemma SeverityMonotone(s1: real, c1: nat, s2: real, c2: nat)
    requires s1 <= s2 && c1 <= c2
    ensures SeverityIndex(DetermineSeverity(s1, c1)) <= SeverityIndex(DetermineSeverity(s2, c2))
  {
  }

  /** For the engine's own scores, INFO means exactly that no condition was met. */
  lemma InfoIffNoCondition(floodProb: real, anomalyScore: real, rainfall24h: real,
                           warningCount: nat, threshold: real, confidence: real)
    ensures var cs := ConditionsMet(floodProb, anomalyScore, rainfall24h, warningCount, threshold);
            DetermineSeverity(AlertScore(cs, confidence), |cs|) == Info <==> |cs| == 0
  {
    ScoreOfConditions(floodProb, anomalyScore, rainfall24h, warningCount, threshold, confidence);
  }

  datatype EarlyWarning = EarlyWarning(kind: string)

  predicate HasRainfallSurge(ws: seq<EarlyWarning>) {
    exists i :: 0 <= i < |ws| && ws[i].kind == "rainfall_surge"
  }

  /** The alert type by precedence: a rainfall surge, then river overflow,
      then heavy rainfall, else a plain flood alert. */
  function DetermineAlertType(floodProb: real, rainfall: real, ws: seq<EarlyWarning>,
                              nearRiver: bool): (t: AlertType)
    ensures t == FlashFlood <==> HasRainfallSurge(ws)
    ensures t == RiverOverflow <==> !HasRainfallSurge(ws) && nearRiver && floodProb > 0.6
    ensures t == HeavyRainfall <==> && !HasRainfallSurge(ws) && !(nearRiver && floodProb > 0.6)
                                    && rainfall > 80.0 && floodProb < 0.5
    ensures t == Flood <==> && !HasRainfallSurge(ws) && !(nearRiver && floodProb > 0.6)
                            && !(rainfall > 80.0 && floodProb < 0.5)
  {
    if HasRainfallSurge(ws) then FlashFlood
    else if nearRiver && floodProb > 0.6 then RiverOverflow
    else if rainfall > 80.0 && floodProb < 0.5 then HeavyRainfall
    else Flood
  }

  /** The first rule that applies decides: with a surge nothing else
      matters, and at a river with probability above 0.6 the rainfall does
      not matter. */
  lemma AlertTypePrecedence(p1: real, r1: real, n1: bool, p2: real, r2: real, ws: seq<EarlyWarning>)
    ensures HasRainfallSurge(ws) ==>
              DetermineAlertType(p1, r1, ws, n1) == DetermineAlertType(p2, r2, ws, !n1)
    ensures n1 && p1 > 0.6 ==> DetermineAlertType(p1, r1, ws, n1) == DetermineAlertType(p1, r2, ws, n1)
  {
  }

  /** Without a surge and outside the river and heavy-rain cases the type is FLOOD. */
  lemma AlertTypeDefault(floodProb: real, rainfall: real, ws: seq<EarlyWarning>, nearRiver: bool)
    requires !HasRainfallSurge(ws)
    requires !(nearRiver && floodProb > 0.6)
    requires !(rainfall > 80.0 && floodProb < 0.5)
    ensures DetermineAlertType(floodProb, rainfall, ws, nearRiver) == Flood
  {
  }

  // ---------------------------------------------------------------------
  // Instructions and the SMS payload
  // ---------------------------------------------------------------------

  datatype Instruction = Instruction(priority: nat, action: string)

  /** Each action with its 1-based priority. */
  function Numbered(actions: seq<string>): seq<Instruction> {
    seq(|actions|, i requires 0 <= i < |actions| => Instruction(i + 1, actions[i]))
  }

  /** The instruction list of a severity: its actions numbered from
      priority 1 (5 items for CRITICAL, SEVERE and WARNING, 3 for WATCH, 2
      for INFO). */
  function Instructions(s: Severity): seq<Instruction> {
    Numbered(InstructionActions(s))
  }

  /** The action texts of a severity's instructions, most urgent first. */
  function InstructionActions(s: Severity): seq<string> {
    match s
    case Critical => CriticalActions
    case Severe => SevereActions
    case Warning => WarningActions
    case Watch => WatchActions
    case Info => InfoActions
  }

  const CriticalActions: seq<string> :=
    ["EVACUATE immediately to higher ground",
     "Call emergency services if trapped",
     "Do NOT attempt to cross flooded areas",
     "Move to designated evacuation centers",
     "Keep emergency supplies ready"]

  const SevereActions: seq<string> :=
    ["Prepare for possible evacuation",
     "Move valuables to higher floors",
     "Charge all communication devices",
     "Know your evacuation route",
     "Monitor official updates continuously"]

  const WarningActions: seq<string> :=
    ["Stay informed through official channels",
     "Avoid low-lying areas",
     "Secure outdoor items",
     "Review family emergency plan",
     "Stock essential supplies"]

  const WatchActions: seq<string> :=
    ["Monitor weather updates",
     "Be prepared to act if conditions worsen",
     "Check emergency supplies"]

  const InfoActions: seq<string> :=
    ["Stay aware of changing conditions",
     "No immediate action required"]

  /** CRITICAL, SEVERE and WARNING carry five instructions, WATCH three and
      INFO two, numbered from priority 1 in order. */
  lemma InstructionCounts(s: Severity)
    ensures |Instructions(s)| == (match s
                                  case Critical => 5
                                  case Severe => 5
                                  case Warning => 5
                                  case Watch => 3
                                  case Info => 2)
    ensures forall i :: 0 <= i < |Instructions(s)| ==> Instructions(s)[i].priority == i + 1
  {
    var actions := InstructionActions(s);
    assert |Instructions(s)| == |actions|;
    match s
    case Critical => assert |actions| == |CriticalActions| == 5;
    case Severe => assert |actions| == |SevereActions| == 5;
    case Warning => assert |actions| == |WarningActions| == 5;
    case Watch => assert |actions| == |WatchActions| == 3;
    case Info => assert |actions| == |InfoActions| == 2;
  }

  const SmsLimit: nat := 160
  const SmsDistrictLimit: nat := 15

  /** The district as the SMS uses it: "Your Area" when absent, cut to 15 characters. */
  function SmsDistrict(district: Option<string>): (d: string)
    ensures |d| == Min(|district.GetOr("Your Area")|, SmsDistrictLimit)
    ensures IsPrefix(d, district.GetOr("Your Area"))
  {
    Take(district.GetOr("Your Area"), SmsDistrictLimit)
  }

  /** The text that precedes the district in each template. The source
      file holds each leading emoji as its UTF-8 bytes read back as
      Windows-1252 characters, and these are the characters it sends. */
  function SmsLead(s: Severity): string {
    match s
    case Critical => CriticalLead
    case Severe => SevereLead
    case Warning => WarningLead
    case Watch => WatchLead
    case Info => InfoLead
  }

  const CriticalLead: string := "\U{F0}\U{178}\U{161}\U{A8}CRITICAL:"
  const SevereLead: string := "\U{E2}\U{203A}\U{201D}SEVERE:"
  const WarningLead: string := "\U{E2}\U{161}\U{A0}\U{EF}\U{B8}WARNING:"
  const WatchLead: string := "\U{F0}\U{178}\U{2018}\U{EF}\U{B8}WATCH:"
  const InfoLead: string := "\U{E2}\U{201E}\U{B9}\U{EF}\U{B8}"

  /** The text that follows the district, with the risk percentage as rendered. */
  function SmsTail(s: Severity, pct: string): string {
    match s
    case Critical => CriticalRisk + pct + CriticalAdvice
    case Severe => RiskWords + pct + SevereAdvice
    case Warning => RiskWords + pct + WarningAdvice
    case Watch => WatchTail
    case Info => InfoTail
  }

  const CriticalRisk: string := " FLOOD ALERT! Risk:"
  const CriticalAdvice: string := "%. EVACUATE NOW to high ground. Call 1078 for help."
  const RiskWords: string := " flood risk "
  const SevereAdvice: string := "%. Prepare evacuation. Monitor updates. Emergency:1078"
  const WarningAdvice: string := "%. Stay alert, avoid low areas. Updates:alertaid.in"
  const WatchTail: string := " elevated flood risk. Monitor conditions. Stay informed."
  const InfoTail: string := ": Normal conditions. Stay prepared."

  function SmsTemplate(s: Severity, district: string, pct: int): string {
    SmsLead(s) + district + SmsTail(s, IntToString(pct))
  }

  /** The SMS text: the severity's template cut to 160 characters, with the
      percentage truncated toward zero as `int(probability * 100)` does,
      here on the exact value of the probability. */
  function SmsPayload(s: Severity, district: Option<string>, probability: real): (r: string)
    ensures |r| <= SmsLimit
    ensures IsPrefix(r, SmsTemplate(s, SmsDistrict(district), TruncToInt(probability * 100.0)))
  {
    Take(SmsTemplate(s, SmsDistrict(district), TruncToInt(probability * 100.0)), SmsLimit)
  }

  /** For a probability in [0, 1] nothing is cut: the whole template is sent,
      and the district (at most 15 characters) stands right after the lead. */
  lemma SmsKeepsWholeTemplate(s: Severity, district: Option<string>, probability: real)
    requires 0.0 <= probability <= 1.0
    ensures var d := SmsDistrict(district);
            var r := SmsPayload(s, district, probability);
            && r == SmsTemplate(s, d, TruncToInt(probability * 100.0))
            && |SmsLead(s)| + |d| <= |r|
            && r[|SmsLead(s)|..|SmsLead(s)| + |d|] == d
  {
    var pct := TruncToInt(probability * 100.0);
    assert 0 <= pct <= 100;
    NatToStringShort(pct);
    SmsFrameShort(s, IntToString(pct));
    var d := SmsDistrict(district);
    var t := SmsTemplate(s, d, pct);
    assert |t| <= 160;
    assert t[|SmsLead(s)|..|SmsLead(s)| + |d|] == d;
  }

  /** With a percentage of at most three digits, lead and tail together
      leave room for a 15-character district within 160 characters. */
  lemma SmsFrameShort(s: Severity, pct: string)
    requires |pct| <= 3
    ensures |SmsLead(s)| + |SmsTail(s, pct)| <= 145
  {
  }

  // ---------------------------------------------------------------------
  // Inputs and the alert record
  // ---------------------------------------------------------------------

  /** The caller's location; absent fields are the dict's missing keys. */
  datatype Location = Location(latitude: real, longitude: real, district: Option<string>,
                               state: Option<string>, regionType: Option<string>, nearRiver: bool)

  /** The fields of a flood prediction the engine reads (each defaults to 0). */
  datatype FloodPrediction = FloodPrediction(probability: Option<real>, confidence: Option<real>,
                                             gnnPropagation: Option<real>)

  datatype AnomalyReport = AnomalyReport(combinedScore: Option<real>, earlyWarnings: seq<EarlyWarning>)

  datatype WeatherForecast = WeatherForecast(rainfall24h: Option<real>)

  datatype Escalation =
    | NewAlert(level: Severity)
    | Escalated(from: Severity, to: Severity, previousAlertId: string)
    | DeEscalated(from: Severity, to: Severity, previousAlertId: string)
    | Maintained(level: Severity)

  datatype Status = Active | Cleared

  datatype AlertLocation = AlertLocation(latitude: real, longitude: real, district: Option<string>,
                                         state: Option<string>, affectedAreas: seq<string>)

  datatype Metrics = Metrics(floodProbability: real, confidence: real, anomalyScore: real,
                             conditionsMet: nat)

  datatype Alert = Alert(
    alertId: string,
    timestamp: string,
    severity: Severity,
    alertType: AlertType,
    location: AlertLocation,
    metrics: Metrics,
    conditions: seq<Condition>,
    instructions: seq<Instruction>,
    smsPayload: string,
    status: Status,
    acknowledged: bool,
    acknowledgedAt: Option<string>,
    escalation: Option<Escalation>)

  /** The district itself, then downstream areas when the GNN propagation
      probability exceeds 0.5, then river-adjacent communities near a river. */
  function AffectedAreas(location: Location, prediction: FloodPrediction): (areas: seq<string>)
    ensures 1 <= |areas| <= 3
    ensures areas[0] == location.district.GetOr("Unknown District")
    ensures |areas| == 1 + (if prediction.gnnPropagation.GetOr(0.0) > 0.5 then 1 else 0)
                         + (if location.nearRiver then 1 else 0)
    ensures prediction.gnnPropagation.GetOr(0.0) > 0.5 ==> areas[1] == "Downstream areas from " + areas[0]
    ensures location.nearRiver ==> areas[|areas| - 1] == "River-adjacent communities"
  {
    var district := location.district.GetOr("Unknown District");
    [district]
    + (if prediction.gnnPropagation.GetOr(0.0) > 0.5 then ["Downstream areas from " + district] else [])
    + (if location.nearRiver then ["River-adjacent communities"] else [])
  }

  /** "ALERT-<stamp>-<first three letters of the district, upper-cased>". */
  function AlertId(stamp: string, district: Option<string>): string {
    "ALERT-" + stamp + "-" + Upper(Take(district.GetOr("UNK"), 3))
  }

  /** The alert as built before escalation is assessed. `stamp` is the
      compact date-time used in the id and `timestamp` its ISO form. */
  function DraftAlert(location: Location, prediction: FloodPrediction, anomaly: AnomalyReport,
                      forecast: WeatherForecast, stamp: string, timestamp: string): (a: Alert)
    ensures a.status == Active && !a.acknowledged && a.acknowledgedAt.None? && a.escalation.None?
    ensures a.metrics.conditionsMet == |a.conditions| <= 4
    ensures a.severity == Info <==> |a.conditions| == 0
    ensures a.instructions == Instructions(a.severity)
    ensures |a.smsPayload| <= SmsLimit
    ensures a.location.latitude == location.latitude && a.location.longitude == location.longitude
    ensures a.location.district == location.district && a.location.state == location.state
    ensures a.location.affectedAreas == AffectedAreas(location, prediction)
    ensures a.conditions == ConditionsMet(prediction.probability.GetOr(0.0), anomaly.combinedScore.GetOr(0.0),
                                          forecast.rainfall24h.GetOr(0.0), |anomaly.earlyWarnings|,
                                          AdjustedThreshold(location.regionType))
    ensures a.severity == DetermineSeverity(AlertScore(a.conditions, prediction.confidence.GetOr(0.0)),
                                            |a.conditions|)
    ensures a.alertType == DetermineAlertType(prediction.probability.GetOr(0.0), forecast.rainfall24h.GetOr(0.0),
                                              anomaly.earlyWarnings, location.nearRiver)
    ensures a.smsPayload == SmsPayload(a.severity, location.district, prediction.probability.GetOr(0.0))
    ensures a.metrics == Metrics(prediction.probability.GetOr(0.0), prediction.confidence.GetOr(0.0),
                                 anomaly.combinedScore.GetOr(0.0), |a.conditions|)
    ensures a.alertId == AlertId(stamp, location.district) && a.timestamp == timestamp
  {
    var prob := prediction.probability.GetOr(0.0);
    var confidence := prediction.confidence.GetOr(0.0);
    var anomalyScore := anomaly.combinedScore.GetOr(0.0);
    var rainfall := forecast.rainfall24h.GetOr(0.0);
    var threshold := AdjustedThreshold(location.regionType);
    var cs := ConditionsMet(prob, anomalyScore, rainfall, |anomaly.earlyWarnings|, threshold);
    var score := AlertScore(cs, confidence);
    InfoIffNoCondition(prob, anomalyScore, rainfall, |anomaly.earlyWarnings|,
                       threshold, confidence);
    var severity := DetermineSeverity(score, |cs|);
    var alertType := DetermineAlertType(prob, rainfall, anomaly.earlyWarnings, location.nearRiver);
    Alert(
      AlertId(stamp, location.district),
      timestamp,
      severity,
      alertType,
      AlertLocation(location.latitude, location.longitude, location.district, location.state,
                    AffectedAreas(location, prediction)),
      Metrics(prob, confidence, anomalyScore, |cs|),
      cs,
      Instructions(severity),
      SmsPayload(severity, location.district, prob),
      Active,
      false,
      None,
      None)
  }

  // ---------------------------------------------------------------------
  // Location keys and escalation
  // ---------------------------------------------------------------------

  /** The `"{lat:.2f}_{lon:.2f}"` key, as the pair of rounded hundredths
      (`.2f` rounds the exact value to nearest, ties to even). */
  datatype LocationKey = LocationKey(latHundredths: int, lonHundredths: int)

  function KeyOf(latitude: real, longitude: real): LocationKey {
    LocationKey(RoundHalfEven(latitude * 100.0), RoundHalfEven(longitude * 100.0))
  }

  function AlertKey(a: Alert): LocationKey {
    KeyOf(a.location.latitude, a.location.longitude)
  }

  function Lookup(m: map<LocationKey, Alert>, k: LocationKey): Option<Alert> {
    if k in m then Some(m[k]) else None
  }

  /** The escalation outcome of a new alert against the active one at its location. */
  function AssessEscalation(existing: Option<Alert>, severity: Severity): (e: Escalation)
    ensures e.NewAlert? <==> existing.None?
    ensures e.Escalated? <==>
              existing.Some? && SeverityIndex(severity) > SeverityIndex(existing.value.severity)
    ensures e.DeEscalated? <==>
              existing.Some? && SeverityIndex(severity) < SeverityIndex(existing.value.severity)
    ensures e.Maintained? <==> existing.Some? && severity == existing.value.severity
    ensures (e.Escalated? || e.DeEscalated?) ==>
              e.from == existing.value.severity && e.to == severity
              && e.previousAlertId == existing.value.alertId
    ensures (e.NewAlert? || e.Maintained?) ==> e.level == severity
  {
    match existing
    case None => NewAlert(severity)
    case Some(prev) =>
      var was := SeverityIndex(prev.severity);
      var now := SeverityIndex(severity);
      if now > was then Escalated(prev.severity, severity, prev.alertId)
      else if now < was then DeEscalated(prev.severity, severity, prev.alertId)
      else Maintained(severity)
  }

  // ---------------------------------------------------------------------
  // History
  // ---------------------------------------------------------------------

  datatype HistoryEntry = HistoryEntry(alertId: string, timestamp: string, severity: Severity,
                                       alertType: AlertType, location: AlertLocation)

  function EntryOf(a: Alert): HistoryEntry {
    HistoryEntry(a.alertId, a.timestamp, a.severity, a.alertType, a.location)
  }

  /** The history after appending one entry and keeping the last 1000. */
  function Appended(h: seq<HistoryEntry>, e: HistoryEntry): seq<HistoryEntry> {
    Last(h + [e], HistoryCapacity)
  }

  /** Appending keeps at most 1000 entries, the newest last, and the most
      recent earlier ones in their order. */
  lemma AppendedKeepsMostRecent(h: seq<HistoryEntry>, e: HistoryEntry)
    requires |h| <= HistoryCapacity
    ensures var r := Appended(h, e);
            && |r| == Min(|h| + 1, HistoryCapacity)
            && r[|r| - 1] == e
            && r[..|r| - 1] == h[|h| - (|r| - 1)..]
  {
    LastOfAppend(h, e, HistoryCapacity);
  }

  // ---------------------------------------------------------------------
  // The active-alert table
  // ---------------------------------------------------------------------

  /** The table as a Python dict: a map plus the insertion order of its keys,
      each alert filed under the key of its own location. */
  ghost predicate ActiveTable(order: seq<LocationKey>, alerts: map<LocationKey, Alert>) {
    && (forall k :: k in alerts <==> k in order)
    && (forall i, j :: 0 <= i < j < |order| ==> order[i] != order[j])
    && (forall k :: k in alerts ==> AlertKey(alerts[k]) == k)
  }

  predicate HasId(order: seq<LocationKey>, alerts: map<LocationKey, Alert>, id: string) {
    exists i :: 0 <= i < |order| && order[i] in alerts && alerts[order[i]].alertId == id
  }

  /** Position i holds the first alert, in table order, with the given id. */
  predicate FirstWithId(order: seq<LocationKey>, alerts: map<LocationKey, Alert>, id: string, i: int) {
    && 0 <= i < |order|
    && order[i] in alerts
    && alerts[order[i]].alertId == id
    && forall j :: 0 <= j < i ==> order[j] in alerts && alerts[order[j]].alertId != id
  }

  function Acknowledged(a: Alert, now: string): Alert {
    a.(acknowledged := true, acknowledgedAt := Some(now))
  }

  /** The alerts of the table, in its order. */
  function OrderedValues(order: seq<LocationKey>, alerts: map<LocationKey, Alert>): seq<Alert>
    requires forall i :: 0 <= i < |order| ==> order[i] in alerts
    decreases |order|
  {
    if order == [] then []
    else OrderedValues(order[..|order| - 1], alerts) + [alerts[order[|order| - 1]]]
  }

  /** A location filter: a missing coordinate counts as 0. */
  datatype Query = Query(latitude: Option<real>, longitude: Option<real>)

  /** Within 0.5 degrees of the query point (squared distance below 0.25). */
  predicate Near(a: Alert, q: Query) {
    var dLat := q.latitude.GetOr(0.0) - a.location.latitude;
    var dLon := q.longitude.GetOr(0.0) - a.location.longitude;
    dLat * dLat + dLon * dLon < 0.25
  }

  function NearOnly(alerts: seq<Alert>, q: Query): seq<Alert>
    decreases |alerts|
  {
    if alerts == [] then []
    else NearOnly(alerts[..|alerts| - 1], q) + (if Near(alerts[|alerts| - 1], q) then [alerts[|alerts| - 1]] else [])
  }

  /** The near filter keeps exactly the near alerts. */
  lemma {:induction false} NearOnlyMembers(alerts: seq<Alert>, q: Query, a: Alert)
    ensures a in NearOnly(alerts, q) <==> a in alerts && Near(a, q)
    decreases |alerts|
  {
    if alerts != [] {
      NearOnlyMembers(alerts[..|alerts| - 1], q, a);
      assert alerts == alerts[..|alerts| - 1] + [alerts[|alerts| - 1]];
    }
  }

  /** One more key of the order adds its alert to the values. */
  lemma OrderedValuesStep(order: seq<LocationKey>, alerts: map<LocationKey, Alert>, i: nat)
    requires forall j :: 0 <= j < |order| ==> order[j] in alerts
    requires i < |order|
    ensures OrderedValues(order[..i + 1], alerts) == OrderedValues(order[..i], alerts) + [alerts[order[i]]]
  {
    assert order[..i + 1][..i] == order[..i];
  }

  /** One more alert is kept by the near filter exactly when it is near. */
  lemma NearOnlyStep(alerts: seq<Alert>, a: Alert, q: Query)
    ensures NearOnly(alerts + [a], q) == NearOnly(alerts, q) + (if Near(a, q) then [a] else [])
  {
    assert (alerts + [a])[..|alerts|] == alerts;
  }

  /** Every key of the order has its alert in the dict. */
  lemma TableKeysPresent(order: seq<LocationKey>, alerts: map<LocationKey, Alert>)
    requires ActiveTable(order, alerts)
    ensures forall i :: 0 <= i < |order| ==> order[i] in alerts
  {
  }

  /** The loop of `get_active_alerts` over the dict's values, in order,
      keeping only the near ones when a location is given. */
  method CollectAlerts(order: seq<LocationKey>, alerts: map<LocationKey, Alert>, location: Option<Query>)
    returns (r: seq<Alert>)
    requires forall i :: 0 <= i < |order| ==> order[i] in alerts
    ensures location.None? ==> r == OrderedValues(order, alerts)
    ensures location.Some? ==> r == NearOnly(OrderedValues(order, alerts), location.value)
  {
    r := [];
    var i := 0;
    while i < |order|
      invariant 0 <= i <= |order|
      invariant location.None? ==> r == OrderedValues(order[..i], alerts)
      invariant location.Some? ==> r == NearOnly(OrderedValues(order[..i], alerts), location.value)
    {
      var a := alerts[order[i]];
      OrderedValuesStep(order, alerts, i);
      if location.Some? {
        NearOnlyStep(OrderedValues(order[..i], alerts), a, location.value);
      }
      if location.None? || Near(a, location.value) {
        r := r + [a];
      }
      i := i + 1;
    }
    assert order[..i] == order;
  }

  /** Replacing the alert under a key by one for the same location keeps the
      table and its keys. */
  lemma UpdateKeepsTable(order: seq<LocationKey>, alerts: map<LocationKey, Alert>, k: LocationKey, a: Alert)
    requires ActiveTable(order, alerts)
    requires k in alerts && AlertKey(a) == k
    ensures ActiveTable(order, alerts[k := a])
    ensures alerts[k := a].Keys == alerts.Keys
  {
  }

  /** Deleting the key at position i from the dict keeps the table consistent. */
  lemma RemoveKeepsTable(order: seq<LocationKey>, alerts: map<LocationKey, Alert>, i: int)
    requires ActiveTable(order, alerts)
    requires 0 <= i < |order|
    ensures ActiveTable(order[..i] + order[i + 1..], alerts - {order[i]})
  {
    RemoveKeepsKeys(order, alerts, i);
    RemoveKeepsDistinct(order, i);
  }

  lemma RemoveKeepsKeys(order: seq<LocationKey>, alerts: map<LocationKey, Alert>, i: int)
    requires (forall k :: k in alerts <==> k in order)
    requires forall p, q :: 0 <= p < q < |order| ==> order[p] != order[q]
    requires 0 <= i < |order|
    ensures forall k :: k in alerts - {order[i]} <==> k in order[..i] + order[i + 1..]
  {
    forall k
      ensures k in alerts - {order[i]} <==> k in order[..i] + order[i + 1..]
    {
      RemovedKey(order, i, k);
    }
  }

  /** A key is in the order with position i deleted exactly when it is in
      the order and is not the key at i. */
  lemma RemovedKey(order: seq<LocationKey>, i: int, k: LocationKey)
    requires forall p, q :: 0 <= p < q < |order| ==> order[p] != order[q]
    requires 0 <= i < |order|
    ensures k in order[..i] + order[i + 1..] <==> k in order && k != order[i]
  {
    var o := order[..i] + order[i + 1..];
    if k in o {
      var n :| 0 <= n < |o| && o[n] == k;
      if n < i { assert order[n] == k; } else { assert order[n + 1] == k; }
    }
    if k in order && k != order[i] {
      var n :| 0 <= n < |order| && order[n] == k;
      if n < i { assert o[n] == k; } else { assert o[n - 1] == k; }
    }
  }

  lemma RemoveKeepsDistinct(order: seq<LocationKey>, i: int)
    requires forall p, q :: 0 <= p < q < |order| ==> order[p] != order[q]
    requires 0 <= i < |order|
    ensures var o := order[..i] + order[i + 1..];
            forall p, q :: 0 <= p < q < |o| ==> o[p] != o[q]
  {
    var o := order[..i] + order[i + 1..];
    forall p, q | 0 <= p < q < |o|
      ensures o[p] != o[q]
    {
      var p' := if p < i then p else p + 1;
      var q' := if q < i then q else q + 1;
      assert o[p] == order[p'] && o[q] == order[q'];
    }
  }

  class SmartAlertEngine {
    var activeAlerts: map<LocationKey, Alert>
    var activeOrder: seq<LocationKey>
    var alertHistory: seq<HistoryEntry>

    ghost predicate Valid()
      reads this
    {
      |alertHistory| <= HistoryCapacity && ActiveTable(activeOrder, activeAlerts)
    }

    constructor ()
      ensures Valid()
      ensures activeAlerts == map[] && activeOrder == [] && alertHistory == []
    {
      activeAlerts := map[];
      activeOrder := [];
      alertHistory := [];
    }

    /** Score, classify and build an alert, assess its escalation against the
        active alert at its location, file it there and record it in history. */
    method GenerateAlert(location: Location, prediction: FloodPrediction, anomaly: AnomalyReport,
                         forecast: WeatherForecast, stamp: string, timestamp: string)
      returns (alert: Alert)
      requires Valid()
      modifies this
      ensures Valid()
      ensures var draft := DraftAlert(location, prediction, anomaly, forecast, stamp, timestamp);
              var key := KeyOf(location.latitude, location.longitude);
              && alert == draft.(escalation := Some(AssessEscalation(Lookup(old(activeAlerts), key),
                                                                     draft.severity)))
              && activeAlerts == old(activeAlerts)[key := alert]
              && activeOrder == (if key in old(activeAlerts) then old(activeOrder)
                                 else old(activeOrder) + [key])
              && alertHistory == Appended(old(alertHistory), EntryOf(alert))
    {
      var draft := DraftAlert(location, prediction, anomaly, forecast, stamp, timestamp);
      alert := HandleEscalation(draft);
      StoreAlert(alert);
    }

    method HandleEscalation(draft: Alert) returns (alert: Alert)
      requires Valid()
      modifies this
      ensures Valid()
      ensures alert == draft.(escalation := Some(AssessEscalation(Lookup(old(activeAlerts), AlertKey(draft)),
                                                                  draft.severity)))
      ensures activeAlerts == old(activeAlerts)[AlertKey(draft) := alert]
      ensures activeOrder == (if AlertKey(draft) in old(activeAlerts) then old(activeOrder)
                              else old(activeOrder) + [AlertKey(draft)])
      ensures alertHistory == old(alertHistory)
    {
      var key := AlertKey(draft);
      var existing := Lookup(activeAlerts, key);
      alert := draft.(escalation := Some(AssessEscalation(existing, draft.severity)));
      if key !in activeAlerts {
        activeOrder := activeOrder + [key];
      }
      activeAlerts := activeAlerts[key := alert];
    }

    method StoreAlert(alert: Alert)
      requires Valid()
      modifies this
      ensures Valid()
      ensures alertHistory == Appended(old(alertHistory), EntryOf(alert))
      ensures activeAlerts == old(activeAlerts) && activeOrder == old(activeOrder)
    {
      alertHistory := alertHistory + [EntryOf(alert)];
      alertHistory := Last(alertHistory, HistoryCapacity);
    }

    /** All active alerts in table order, or, given a location, those within
        0.5 degrees of it. An empty location dict is falsy in the source and
        so arrives here as None. */
    method GetActiveAlerts(location: Option<Query>) returns (r: seq<Alert>)
      requires Valid()
      ensures forall i :: 0 <= i < |activeOrder| ==> activeOrder[i] in activeAlerts
      ensures location.None? ==> r == OrderedValues(activeOrder, activeAlerts)
      ensures location.Some? ==> r == NearOnly(OrderedValues(activeOrder, activeAlerts), location.value)
    {
      TableKeysPresent(activeOrder, activeAlerts);
      r := CollectAlerts(activeOrder, activeAlerts, location);
    }

    /** Mark the first active alert with the id as acknowledged; nothing is removed. */
    method AcknowledgeAlert(alertId: string, now: string) returns (found: bool)
      requires Valid()
      modifies this
      ensures Valid()
      ensures found <==> HasId(old(activeOrder), old(activeAlerts), alertId)
      ensures found ==> exists i :: (FirstWithId(old(activeOrder), old(activeAlerts), alertId, i)
                        && activeAlerts == old(activeAlerts)[old(activeOrder)[i] :=
                                             Acknowledged(old(activeAlerts)[old(activeOrder)[i]], now)])
      ensures !found ==> activeAlerts == old(activeAlerts)
      ensures activeAlerts.Keys == old(activeAlerts).Keys
      ensures activeOrder == old(activeOrder) && alertHistory == old(alertHistory)
    {
      var i := 0;
      while i < |activeOrder|
        invariant 0 <= i <= |activeOrder|
        invariant forall j :: 0 <= j < i ==> activeAlerts[activeOrder[j]].alertId != alertId
      {
        var key := activeOrder[i];
        if activeAlerts[key].alertId == alertId {
          assert FirstWithId(activeOrder, activeAlerts, alertId, i);
          UpdateKeepsTable(activeOrder, activeAlerts, key, Acknowledged(activeAlerts[key], now));
          activeAlerts := activeAlerts[key := Acknowledged(activeAlerts[key], now)];
          return true;
        }
        i := i + 1;
      }
      return false;
    }

    /** Remove the first active alert with the id from the table. */
    method ClearAlert(alertId: string) returns (found: bool)
      requires Valid()
      modifies this
      ensures Valid()
      ensures found <==> HasId(old(activeOrder), old(activeAlerts), alertId)
      ensures found ==> exists i :: (FirstWithId(old(activeOrder), old(activeAlerts), alertId, i)
                        && activeAlerts == old(activeAlerts) - {old(activeOrder)[i]}
                        && activeOrder == old(activeOrder)[..i] + old(activeOrder)[i + 1..])
      ensures !found ==> activeAlerts == old(activeAlerts) && activeOrder == old(activeOrder)
      ensures alertHistory == old(alertHistory)
    {
      var i := 0;
      while i < |activeOrder|
        invariant 0 <= i <= |activeOrder|
        invariant forall j :: 0 <= j < i ==> activeAlerts[activeOrder[j]].alertId != alertId
      {
        var key := activeOrder[i];
        if activeAlerts[key].alertId == alertId {
          assert FirstWithId(activeOrder, activeAlerts, alertId, i);
          RemoveKeepsTable(activeOrder, activeAlerts, i);
          activeAlerts := activeAlerts - {key};
          activeOrder := activeOrder[..i] + activeOrder[i + 1..];
          return true;
        }
        i := i + 1;
      }
      return false;
    }
  }
}
