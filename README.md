# Alert-aid decision logic in Dafny

This project models the decision logic of the alert-aid flood-warning
backend. It covers five parts:

- **Smart alert engine.** A stateful component. It scores up to four
  weighted conditions, maps the score and the number of conditions met to a
  five-level severity and picks an alert type by precedence. It keeps a
  table of active alerts keyed by rounded location, which drives the
  escalation outcome: new, escalated, de-escalated or maintained. It also
  keeps an alert history capped at 1000 entries and supports acknowledging
  and clearing alerts by id.
- **External-data parsers and classifiers.**
  - Earthquake magnitude to alert colour, and USGS feature filtering.
  - GDACS item classification: red/orange/green and event-type keywords,
    with at most 30 alerts and 500-character descriptions.
  - NASA FIRMS CSV framing: header lookup with fallbacks, at most 100
    rows, bad rows skipped, intensity bands, sorting by distance.
  - The coastal-India box test and the IMD-style weather warning rules.
- **Anomaly detector.**
  - The isolation-style per-feature score against fixed baselines, and the
    reconstruction error of one feature.
  - The combined score and its alert bands, and the rainfall-surge rule.
  - A rolling window of the last 100 combined scores, with its trend rule.
- **Ensemble predictor.**
  - The LSTM-style time-series score, with its regression trend and capped
    horizons.
  - The XGBoost-style weighted risk score, with its class table and
    SHAP-style attributions.
  - The river-network propagation.
  - The weighted vote, the risk bands, the recommended actions, the
    data-quality score and the limitations list.
- **Flood-forecast data preparation.** Current-weather extraction with its
  defaults, the 24-hour rainfall accumulation over the first eight forecast
  steps, and the environmental data derived from the weather.

All quantities are Dafny `real`, so every threshold comparison is exact.

The modules follow the source files:

- `smart_alerts.dfy` (module `SmartAlerts`);
- `external_apis.dfy` (`ExternalApis`);
- `anomaly_detector.dfy` (`AnomalyDetection`);
- `ensemble_predictor.dfy` (`EnsemblePredictor`);
- `flood_forecast.dfy` (`FloodForecast`).

Two helper modules support them:

- `text.dfy` (`Text`): the Option type, Python-style slicing, substring
  search, splitting and stripping, integer rendering and sums.
- `sorting.dfy` (`Sorting`): a stable sort by a real key, which is what
  Python's `sorted(key=...)` is.

The parts that change state are imperative:

- the alert engine is a class over a map plus a key order and a history
  list;
- the anomaly detector is a class over its score window;
- the parsers, the IMD rules, the attribution loop and the forecast loop
  are methods with loops;
- the data-quality score and the limitations list, which the source builds
  by straight-line updates of a local variable, are methods that perform
  those updates in the same order.

Each method is proved against a specification function or state
description. The properties are proved about those functions as lemmas.

## Model

| member | source | states |
|---|---|---|
| SmartAlerts.CalibrationFactor | backend/ml/smart_alerts.py:55-61 | The regional factor lies in [0.95, 1.2]. A missing or unknown region type gets 1.0. |
| SmartAlerts.ConditionsMet | backend/ml/smart_alerts.py:100-146 | At most four conditions are ever met. |
| SmartAlerts.ConditionsMetExactly | backend/ml/smart_alerts.py:100-146 | Each condition is met exactly when its threshold is exceeded: probability over the calibrated threshold, anomaly score over 0.6, rainfall over 50, or at least one early warning. |
| SmartAlerts.ConditionsInOrder | backend/ml/smart_alerts.py:100-146 | The conditions met come at most once each, in the order they are evaluated, and each carries its own weight. |
| SmartAlerts.WeightSumOfConditions | backend/ml/smart_alerts.py:100-146 | The raw score is the sum of the weights 0.35/0.25/0.25/0.15 of the conditions met. No condition is listed exactly when none holds. |
| SmartAlerts.ScoreOfConditions | backend/ml/smart_alerts.py:140-146 | The score is multiplied by 0.7 when confidence is below 0.6. It stays in [0, 1] and is 0 exactly when no condition is met. |
| SmartAlerts.DetermineSeverity | backend/ml/smart_alerts.py:176-197 | Each band holds exactly when its own rule fires and no band above it does. CRITICAL: score at least 0.75 and at least three conditions. SEVERE: score at least 0.6, or at least 0.5 with three conditions. WARNING: score at least 0.4 or two conditions. WATCH: score at least 0.2 or one condition. INFO: score below 0.2 and no condition. One condition gives at least WATCH, two at least WARNING. |
| SmartAlerts.SeverityMonotone | backend/ml/smart_alerts.py:176-197 | A higher score and more conditions never give a lower severity. |
| SmartAlerts.InfoIffNoCondition | backend/ml/smart_alerts.py:94-197 | Severity is INFO exactly when no condition was met. |
| SmartAlerts.DetermineAlertType | backend/ml/smart_alerts.py:199-220 | Each type is stated both ways. FLASH_FLOOD holds exactly when a rainfall-surge warning is present. RIVER_OVERFLOW holds exactly when there is no surge, the site is near a river and the probability is over 0.6. HEAVY_RAINFALL holds exactly when neither applies, rainfall is over 80 and the probability is below 0.5. FLOOD holds exactly when none of the three rules applies. |
| SmartAlerts.AlertTypePrecedence | backend/ml/smart_alerts.py:199-220 | A surge warning decides the type whatever the probability, rainfall and river flag. Near a river with probability over 0.6, rainfall no longer matters. |
| SmartAlerts.AlertTypeDefault | backend/ml/smart_alerts.py:199-220 | When none of the three rules applies, the type is FLOOD. |
| SmartAlerts.InstructionCounts | backend/ml/smart_alerts.py:359-395 | CRITICAL, SEVERE and WARNING carry five instructions, WATCH three and INFO two, with priorities 1, 2, … in order. |
| SmartAlerts.SmsDistrict | backend/ml/smart_alerts.py:475 | The district is the first min(n, 15) characters of the given name, or of "Your Area" when none is given, where n is that name's length. |
| SmartAlerts.SmsPayload | backend/ml/smart_alerts.py:472-486 | The SMS is at most 160 characters and is a prefix of the severity's template, with the percentage truncated toward zero from the exact probability. |
| SmartAlerts.SmsFrameShort | backend/ml/smart_alerts.py:475-485 | With a percentage of at most three characters, the template without the district takes at most 145 characters, so a 15-character district always fits in 160. |
| SmartAlerts.SmsKeepsWholeTemplate | backend/ml/smart_alerts.py:472-486 | For a probability in [0, 1] the whole template fits, so the SMS is the template with the district right after the severity lead. |
| SmartAlerts.AffectedAreas | backend/ml/smart_alerts.py:397-412 | The district (or "Unknown District") comes first. When propagation exceeds 0.5 the second entry is "Downstream areas from " followed by that district. "River-adjacent communities" comes last when the site is near a river. There are no other entries. |
| SmartAlerts.DraftAlert | backend/ml/smart_alerts.py:222-297 | The new alert is active and unacknowledged, with no escalation yet. Its conditions are the conditions met by the prediction probability, anomaly score, 24-hour rainfall and early-warning count against the region's adjusted threshold (missing values counted as 0). Its severity comes from the alert score of those conditions and the prediction confidence, and its type from the probability, rainfall, early warnings and river proximity. Also tied to the inputs: the SMS text, the affected areas, the metrics, the id built from the stamp and district, the timestamp, and the location's district, state and coordinates. It has its severity's instructions and an SMS of at most 160 characters. |
| Text.RoundHalfEven | backend/ml/smart_alerts.py:491 | The location key rounds to the nearest hundredth, with ties to even. |
| SmartAlerts.AssessEscalation | backend/ml/smart_alerts.py:488-535 | The outcome is "new" exactly when no alert is active at the key. Otherwise it is escalated, de-escalated or maintained exactly as the severity index rises, falls or stays the same. A change records the previous alert's id and level. |
| SmartAlerts.AppendedKeepsMostRecent | backend/ml/smart_alerts.py:537-549 | The history never exceeds 1000 entries. The new entry is last, and the entries before it are the most recent earlier ones, in order. |
| SmartAlerts.NearOnlyMembers | backend/ml/smart_alerts.py:551-570 | A location query keeps exactly the active alerts within 0.5 degrees, compared as squared distance. |
| SmartAlerts.RemoveKeepsTable | backend/ml/smart_alerts.py:581-589 | Deleting one entry keeps the active table consistent: every key has an alert, the keys are distinct, and each alert sits under its own location key. |
| SmartAlerts.SmartAlertEngine.constructor | backend/ml/smart_alerts.py:51-52 | The engine starts with no active alerts and an empty history. |
| SmartAlerts.SmartAlertEngine.GenerateAlert | backend/ml/smart_alerts.py:63-174 | The alert is the drafted alert with its escalation outcome. It becomes the active alert at its key, the key order gains the key only if it is new, and the history gains its entry. |
| SmartAlerts.SmartAlertEngine.HandleEscalation | backend/ml/smart_alerts.py:488-535 | The escalation is assessed against the active alert at the key. Afterwards the table maps the key to the new alert. |
| SmartAlerts.SmartAlertEngine.StoreAlert | backend/ml/smart_alerts.py:537-549 | One entry is appended and the history is trimmed to its last 1000 entries. The active table is unchanged. |
| SmartAlerts.CollectAlerts | backend/ml/smart_alerts.py:551-570 | The loop over the table collects every alert in key order, or only the near ones when a location is given. |
| SmartAlerts.SmartAlertEngine.GetActiveAlerts | backend/ml/smart_alerts.py:551-570 | Without a query: all active alerts in insertion order. With one: only those near it. An empty query dictionary is falsy in the source, so it counts as no query. |
| SmartAlerts.SmartAlertEngine.AcknowledgeAlert | backend/ml/smart_alerts.py:572-579 | Returns true exactly when some active alert has the id. The first such alert is marked acknowledged and nothing is removed. |
| SmartAlerts.SmartAlertEngine.ClearAlert | backend/ml/smart_alerts.py:581-589 | Returns true exactly when some active alert has the id, and then removes exactly that entry. With no match the table is unchanged. |
| ExternalApis.AlertLevel | backend/routes/external_apis.py:245-257 | Magnitude of at least 7 is red, 6 orange, 5 yellow, 4 green; below 4 there is no level (each band stated both ways). |
| ExternalApis.AlertLevelMonotone | backend/routes/external_apis.py:245-257 | A larger magnitude never gives a lower alert level. |
| ExternalApis.QuakesMembers | backend/routes/external_apis.py:86-122 | An earthquake is kept exactly when some feature with at least three coordinates converts to it. No more earthquakes than features are kept. |
| ExternalApis.QuakesAppend | backend/routes/external_apis.py:86-122 | Filtering two feature lists one after the other keeps the earthquakes of each, in order. |
| ExternalApis.QuakesSingle | backend/routes/external_apis.py:95-121 | One feature gives its earthquake exactly when it has at least three coordinates. |
| ExternalApis.ProcessUsgs | backend/routes/external_apis.py:86-122 | The loop's result is the filtered feature list. A missing feature list gives none. |
| ExternalApis.GdacsLevel | backend/routes/external_apis.py:421-426 | "Red" in the title (case-sensitive) gives red, otherwise "Orange" gives orange, otherwise green. |
| ExternalApis.KeywordTypeIsFirstMatch | backend/routes/external_apis.py:428-442 | The keyword chain picks the first matching entry of the table: earthquake, flood, cyclone/storm/typhoon, volcano, drought, wildfire/fire, else unknown. |
| ExternalApis.FirstKeywordMeaning | backend/routes/external_apis.py:428-442 | With no keyword present the type is unknown. When entry k is the first match, the type is entry k's type. |
| ExternalApis.ClassifyItem | backend/routes/external_apis.py:412-455 | An item fails exactly when its title has no text or its point does not parse. Otherwise its id is "gdacs-i", its title is the item's title text, its description is the first 500 characters of the item's description (or empty), and its level and first-match type follow the title. |
| ExternalApis.AlertOf | backend/routes/external_apis.py:412-453 | The alert built from an item has id "gdacs-i", the item's title, the first 500 characters of its description, and its publication date and link (empty when absent). Its level and type follow the title. With a point of at least two fields the coordinates are the parsed fields; with no point or a shorter one they are 0, 0. |
| ExternalApis.ParsedCount | backend/routes/external_apis.py:412-455 | The loop reaches exactly the items before the first one whose processing raises. |
| ExternalApis.ParseGdacs | backend/routes/external_apis.py:397-457 | The loop builds the alerts of the items in order until the first item that raises, then cuts the list to 30. |
| ExternalApis.AlertsElements | backend/routes/external_apis.py:412-453 | The alerts of the first n items are n alerts, and alert j is built from item j. |
| ExternalApis.GdacsAlertsClassified | backend/routes/external_apis.py:397-457 | The result holds min(items before the first failure, 30) alerts, and alert i is the classification of item i. |
| ExternalApis.IndexOf | backend/routes/external_apis.py:513-520 | The header index is the first position of the name, or none when it is absent. |
| ExternalApis.ColumnsOf | backend/routes/external_apis.py:513-520 | Each column is the first position of its header. Latitude and longitude fall back to 0 and 1 when their headers are absent. Brightness, FRP, confidence, date and time are -1 exactly when their headers are absent. |
| ExternalApis.FireIntensity | backend/routes/external_apis.py:538-546 | Every band is stated both ways. Extreme: brightness over 400 or FRP over 100. High: not extreme, and brightness over 350 or FRP over 50. Moderate: neither, and brightness over 320 or FRP over 20. Low: brightness at most 320 and FRP at most 20. |
| ExternalApis.FireRow | backend/routes/external_apis.py:522-561 | A row is kept exactly when every needed index is in range, both coordinates parse, and brightness and FRP each parse or are absent. The kept fire has the parsed coordinates. Brightness is the parsed value or 300, FRP the parsed value or 0. Confidence is the column's text or "nominal", and the acquisition date and time are the columns' texts. Its intensity is the band of its brightness and FRP. The distance is the computed distance rounded to one place exactly when a user location is given and the distance is not 0; otherwise there is none. |
| ExternalApis.DefaultsGiveLow | backend/routes/external_apis.py:534-546 | Without brightness and FRP columns (defaults 300 and 0), a fire is low intensity. |
| ExternalApis.FireRowsMembers | backend/routes/external_apis.py:522-561 | The fires kept are exactly the rows that convert. |
| ExternalApis.CollectFires | backend/routes/external_apis.py:522-561 | The loop converts the data lines in order and skips each line that fails. |
| ExternalApis.ParseFirmsCsv | backend/routes/external_apis.py:505-567 | Fewer than two lines give no fires. Otherwise at most 100 data lines are converted. The result is sorted by distance when a user location is given, and has at most 100 fires. |
| ExternalApis.FirmsSortedByDistance | backend/routes/external_apis.py:563-565 | The distance sort is ascending, yields a permutation and keeps the order of fires at equal distance. |
| ExternalApis.ZeroDistanceSortsFar | backend/routes/external_apis.py:555-565 | A fire at distance exactly 0 has no distance and sorts under the key 99999. |
| ExternalApis.NearDistanceSortsFar | backend/routes/external_apis.py:555-565 | A non-zero distance of magnitude under 0.05 km is reported as 0.0 and also sorts under 99999, because the sort key treats the rounded 0.0 as missing. |
| ExternalApis.IsCoastalIndia | backend/routes/external_apis.py:784-797 | True exactly when the point lies in one of the four inclusive boxes. |
| ExternalApis.AddIf | backend/routes/external_apis.py:703-780 | One rule step adds its kind of warning exactly when its rule fires and adds no other kind. The list stays in rule order, and each warning has its rule's severity, hours and instructions. |
| ExternalApis.GenerateImdWarnings | backend/routes/external_apis.py:686-782 | No weather gives no warnings, and an empty conditions list fails. Otherwise each kind of warning is issued exactly when its rule fires, in rule order, with wind converted ×3.6 and the month as a parameter. |
| ExternalApis.HeatWarningsExclusive | backend/routes/external_apis.py:703-720 | The heat wave (over 40) and the heat advisory (over 35) never both fire. Over 45 the heat wave is red. |
| AnomalyDetection.BaselineSpreadsPositive | backend/ml/anomaly_detector.py:25-31 | Every baseline has a positive standard deviation. |
| AnomalyDetection.ZScore | backend/ml/anomaly_detector.py:56-90 | The deviation from the baseline mean is never negative. |
| AnomalyDetection.FeatureScore | backend/ml/anomaly_detector.py:46-100 | A feature is skipped exactly when it has no baseline or is an empty series. Otherwise its score lies in [0, 1]. |
| AnomalyDetection.SingleScoreMonotone | backend/ml/anomaly_detector.py:84-86 | A single reading farther from its baseline mean never scores lower. |
| AnomalyDetection.SingleScoreSaturates | backend/ml/anomaly_detector.py:84-86 | A single reading scores exactly 1.0 when its z-score, the distance from the mean over std + 0.001, is at least 4. |
| AnomalyDetection.AtMeanScoresZero | backend/ml/anomaly_detector.py:84-86 | A reading at its baseline mean scores 0. |
| AnomalyDetection.SeriesLastSix | backend/ml/anomaly_detector.py:56-66 | A series is judged on its last six values only: anything before them does not change its score. |
| AnomalyDetection.ConstantSeriesIsSingle | backend/ml/anomaly_detector.py:56-86 | A non-empty constant series scores as the single reading of that value, because its maximum and its mean are both that value. |
| AnomalyDetection.ScoredInRange | backend/ml/anomaly_detector.py:46-107 | Every scored feature has a baseline and a score in [0, 1]. |
| AnomalyDetection.FlaggedExactly | backend/ml/anomaly_detector.py:73-100 | A feature is flagged exactly when its score exceeds 0.6. The flag carries the score rounded to three places, and severity "high" exactly above 0.8. |
| AnomalyDetection.IsolationBounds | backend/ml/anomaly_detector.py:103-117 | The overall score is the mean of the per-feature scores as stored, rounded to three places. It lies in [0, 1] and is 0 without scored features. Confidence lies in [0.6, 0.8]. The flag is decided on the unrounded mean: a reported score over 0.5 implies anomalous, and anomalous implies a reported score of at least 0.5. |
| AnomalyDetection.StoredScoresDecideTheFlag | backend/ml/anomaly_detector.py:88-117 | A lone hourly rainfall of 12.51 scores above 0.5, but its stored score is 0.5, so the overall score is 0.5 and the reading is not anomalous. |
| AnomalyDetection.IsolationDetect | backend/ml/anomaly_detector.py:33-117 | The scoring loop computes the isolation result of the readings. |
| AnomalyDetection.FeatureReconstructionError | backend/ml/anomaly_detector.py:246-257 | The error is at most 1.0, and 0.5 when either vector is empty. |
| AnomalyDetection.ReconstructionErrorProperties | backend/ml/anomaly_detector.py:246-257 | The error is non-negative and symmetric, and only the common prefix counts. |
| AnomalyDetection.ReconstructionErrorZero | backend/ml/anomaly_detector.py:246-257 | The error is 0 exactly when the common prefix is non-empty and the two vectors agree on it. |
| AnomalyDetection.ReconstructionErrorSaturates | backend/ml/anomaly_detector.py:246-257 | One coordinate whose squared difference is at least the common length makes the mean square at least 1, so the error is exactly 1.0. |
| AnomalyDetection.CombinedScore | backend/ml/anomaly_detector.py:294-299 | Without an autoencoder result the combined score is the isolation score. With one, twice the combined score is the sum of the two scores, so it lies between them. |
| AnomalyDetection.AlertLevelFor | backend/ml/anomaly_detector.py:302-313 | At least 0.7 is critical, 0.5 warning, 0.3 watch, otherwise normal (each band stated both ways). |
| AnomalyDetection.AlertLevelMonotone | backend/ml/anomaly_detector.py:302-313 | A higher score never gives a lower alert level. |
| AnomalyDetection.CombinedLevelMonotone | backend/ml/anomaly_detector.py:294-313 | Higher isolation and reconstruction scores never give a lower alert level, with or without an autoencoder result. |
| AnomalyDetection.GetAction | backend/ml/anomaly_detector.py:387-395 | An unknown level gets the normal action. |
| AnomalyDetection.SteadyRainNoSurge | backend/ml/anomaly_detector.py:319-329 | Constant rainfall, however heavy, never triggers a surge, because the surge needs the last three hours' mean above twice the previous three's. |
| AnomalyDetection.Trend | backend/ml/anomaly_detector.py:361-385 | Fewer than five samples give a stable trend with change 0 and no sample count. Otherwise the change is the mean of the last two samples minus the mean of the fifth- and fourth-last, reported to three places, with the sample count. The trend is increasing exactly when that change exceeds 0.1, and decreasing exactly when it is below -0.1. |
| AnomalyDetection.TrendLastFive | backend/ml/anomaly_detector.py:361-385 | The trend depends only on the last five samples, up to a common shift. |
| AnomalyDetection.TrendFollowsScores | backend/ml/anomaly_detector.py:361-385 | When each of the last two samples exceeds each of the fifth- and fourth-last by more than 0.1, the trend is increasing; the mirror case gives decreasing. |
| AnomalyDetection.EarlyWarnings | backend/ml/anomaly_detector.py:317-337 | A surge warning is raised exactly when the rainfall series surges. A pattern warning is raised exactly when there is a time series and the autoencoder triggered. There are at most two warnings, each at most once, and the surge warning comes first. |
| AnomalyDetection.WindowKeepsMostRecent | backend/ml/anomaly_detector.py:340-343 | The window gains the new score last and keeps the latest earlier scores in order, up to 100. |
| AnomalyDetection.AnomalyDetector.constructor | backend/ml/anomaly_detector.py:270 | The detector starts with an empty window. |
| AnomalyDetection.AnomalyDetector.Detect | backend/ml/anomaly_detector.py:272-359 | The isolation result is that of the readings. With a time series the reconstruction error, rounded to three places, joins the combined score. The reported combined score is rounded to three places, while the level and the anomaly flag use the unrounded one. The early warnings and the action follow their rules. The window gains exactly one score, dropping the oldest beyond 100, and the trend is computed on the new window. |
| EnsemblePredictor.LinearTrend | backend/ml/ensemble_predictor.py:84-100 | The trend lies in [-1, 1] and is 0 for fewer than two values. |
| EnsemblePredictor.TrendDenominatorPositive | backend/ml/ensemble_predictor.py:92-97 | For n of at least two, the regression denominator (the sum of squared offsets from the middle index) is positive, so the zero guard never fires. |
| EnsemblePredictor.FlatSeriesHasNoTrend | backend/ml/ensemble_predictor.py:84-100 | A constant series has trend 0. |
| EnsemblePredictor.LinearSeriesTrend | backend/ml/ensemble_predictor.py:84-100 | A series on the line a + b·i has trend b / 5 clamped to [-1, 1]. |
| EnsemblePredictor.LstmRainfall | backend/ml/ensemble_predictor.py:37-38 | A series shorter than 24 is replaced by 24 dry hours. Longer ones are used as given. |
| EnsemblePredictor.LstmPredict | backend/ml/ensemble_predictor.py:23-82 | The horizons are the base probability times 1.2, 1 and 0.85, each capped at 0.95 and rounded to three places. Every horizon is at most 0.95, and the reported trend lies in [-1, 1]. The reported intensity, 24-hour total and whole-series total are, to one place, the peak of the last six readings, the sum of the last 24 and the sum of all readings of the padded series, so of the series itself from 24 readings on. The confidence is that of the padded series' length. |
| EnsemblePredictor.LstmConfidenceGrows | backend/ml/ensemble_predictor.py:82 | The confidence is 0.8 at 24 readings and 0.9 at 72. It never decreases with the length and is at least 0.8 from 24 readings on. It is not capped: 144 readings give 1.05. |
| EnsemblePredictor.LstmHorizonsOrdered | backend/ml/ensemble_predictor.py:50-66 | With non-negative readings, 0 ≤ p24 ≤ p12 ≤ p6 ≤ 0.95. |
| EnsemblePredictor.CappedHorizonsOrdered | backend/ml/ensemble_predictor.py:63-66 | For a non-negative base, the rounded capped horizons satisfy 0 ≤ p24 ≤ p12 ≤ p6 ≤ 0.95. |
| EnsemblePredictor.ShortRainfallGivesBaseline | backend/ml/ensemble_predictor.py:37-81 | Fewer than 24 readings and no discharge give 0.18/0.15/0.128 (0.1275 rounded half to even) with trend 0 and confidence 0.8. |
| EnsemblePredictor.ShortRainfallReportsNoRain | backend/ml/ensemble_predictor.py:37-45 | Fewer than 24 readings report intensity 0 and both rainfall totals 0, whatever the discharge. |
| EnsemblePredictor.WeightsSumToOne | backend/ml/ensemble_predictor.py:136-145 | The eight feature weights sum to 1. |
| EnsemblePredictor.SlopeHasNoEffect | backend/ml/ensemble_predictor.py:129-157 | Changing the slope never changes the risk score. |
| EnsemblePredictor.RiskScoreInUnit | backend/ml/ensemble_predictor.py:126-157 | For features in their natural ranges, the weighted score with defaults lies in [0, 1]. |
| EnsemblePredictor.XgbClass | backend/ml/ensemble_predictor.py:160-171 | Below 0.25 is Low, below 0.5 Medium, below 0.75 High, otherwise Severe (each band stated both ways). |
| EnsemblePredictor.ClassProbs | backend/ml/ensemble_predictor.py:160-171 | Each class-probability row has four non-negative entries summing to 1, and its largest entry is the predicted class. |
| EnsemblePredictor.XgbConfidence | backend/ml/ensemble_predictor.py:184 | The confidence is the maximum of the row, which is the predicted class's probability. |
| EnsemblePredictor.XgbPredict | backend/ml/ensemble_predictor.py:114-185 | The class is the band of the unrounded score. The reported score is that score rounded to three places, so within 0.0005 of it. The probabilities and confidence are the class's row: they sum to 1 and none exceeds the confidence. The attributions are the sorted SHAP list. |
| EnsemblePredictor.ShapValues | backend/ml/ensemble_predictor.py:187-211 | The loop over the weight table collects the four-place contributions of the features present. They are then stably sorted by descending absolute value of those rounded contributions. |
| EnsemblePredictor.ShapUpToEntries | backend/ml/ensemble_predictor.py:190-209 | An attribution is exactly a feature present in the input and in the weight table, paired with its weighted contribution rounded to four places. |
| EnsemblePredictor.ShapSortKeepsEntries | backend/ml/ensemble_predictor.py:211 | The sort is a permutation of the attributions. |
| EnsemblePredictor.ShapValuesDescend | backend/ml/ensemble_predictor.py:211 | The sorted attributions descend by absolute value. |
| EnsemblePredictor.ShapValuesCover | backend/ml/ensemble_predictor.py:187-211 | A feature has an attribution exactly when it is both given and weighted, and then its attribution is its weighted contribution rounded to four places. |
| EnsemblePredictor.ShapSumOfContributions | backend/ml/ensemble_predictor.py:190-209 | With all eight features given, the attribution sum is the sum of the eight four-place contributions in table order. |
| EnsemblePredictor.RiskScoreIsContributionSum | backend/ml/ensemble_predictor.py:148-157 | With all eight weighted features given, the risk score is the sum of their unrounded contributions. |
| EnsemblePredictor.ShapSumNearRiskScore | backend/ml/ensemble_predictor.py:148-209 | With all eight weighted features given, the four-place attributions sum to within 0.0004 of the risk score. |
| EnsemblePredictor.UpstreamRiskInUnit | backend/ml/ensemble_predictor.py:245-246 | The blend of the maximum and mean upstream risk stays in [0, 1] when each risk does. |
| EnsemblePredictor.GnnPredict | backend/ml/ensemble_predictor.py:224-274 | With no upstream stations: propagation 0, no arrival, confidence 0.3. Otherwise the propagation is the blended upstream risk times the decay at the nearest distance, capped at 0.95 and rounded to three places. The arrival is the nearest distance (50 km when missing) divided by the 5 km/h flow velocity, to one place, and absent when it is 0. The confidence is 0.6 + 0.02 per station. The station count is reported. |
| EnsemblePredictor.GnnConfidenceExact | backend/ml/ensemble_predictor.py:268 | Rounding 0.6 + n/10 · 0.2 to two places gives exactly 0.6 + 0.02n. |
| EnsemblePredictor.GnnPropagationInRange | backend/ml/ensemble_predictor.py:244-257 | With risks in [0, 1] and a non-negative decay, propagation lies in [0, 0.95]. |
| EnsemblePredictor.RiskLevel | backend/ml/ensemble_predictor.py:349-356 | At least 0.75 is Severe, 0.5 High, 0.25 Medium, otherwise Low (each band stated both ways). |
| EnsemblePredictor.RiskLevelIsXgbClass | backend/ml/ensemble_predictor.py:349-356 | The ensemble bands coincide with the XGBoost class bands. |
| EnsemblePredictor.EnsembleProbability | backend/ml/ensemble_predictor.py:342-344 | The 0.40/0.45/0.15 vote lies between the smallest and the largest model output, and in [0, 1] when they are. |
| EnsemblePredictor.EnsembleConfidence | backend/ml/ensemble_predictor.py:358-391 | The reported confidence is at most 0.95. A spread of 0.15 or more gives no agreement bonus. |
| EnsemblePredictor.EnsembleConfidenceAgreement | backend/ml/ensemble_predictor.py:365-391 | A smaller spread never lowers the confidence. At spread 0 it is the weighted confidence plus 0.15, capped at 0.95, and it is never below the capped weighted confidence. |
| EnsemblePredictor.RecommendedActions | backend/ml/ensemble_predictor.py:437-467 | An unknown level gets the Low actions. Severe, High and Medium have five actions, and Low has three. |
| EnsemblePredictor.AssessDataQuality | backend/ml/ensemble_predictor.py:469-482 | The step-by-step accumulation computes the data-quality score. |
| EnsemblePredictor.DataQualityBounds | backend/ml/ensemble_predictor.py:469-482 | The score lies in [0.5, 1]. It is 1 exactly with three days of rainfall, discharge and soil moisture, and 0.5 exactly with none of them. |
| EnsemblePredictor.DataQualityReported | backend/ml/ensemble_predictor.py:407 | The data-quality score already has two places, so rounding it changes nothing. |
| EnsemblePredictor.GetLimitations | backend/ml/ensemble_predictor.py:484-497 | The appending sequence computes the limitations list. |
| EnsemblePredictor.LimitationsProperties | backend/ml/ensemble_predictor.py:484-497 | The list is never empty, and each limitation appears exactly when its gap exists. "Data coverage adequate" appears exactly when there is no gap. |
| EnsemblePredictor.LimitationsInOrder | backend/ml/ensemble_predictor.py:484-497 | There are at most four limitations, each at most once, in the order of the checks: discharge, station network, rainfall history, soil moisture. |
| EnsemblePredictor.Rainfall24h | backend/ml/ensemble_predictor.py:324 | The 24-hour feature is the sum of the last 24 readings, or of all when there are fewer. |
| EnsemblePredictor.RainfallIntensity | backend/ml/ensemble_predictor.py:325 | The intensity feature is the maximum of the last six readings, and 0 without readings. |
| EnsemblePredictor.XgbFeatures | backend/ml/ensemble_predictor.py:323-332 | The tabular features hold all eight weighted features and slope. Rainfall is the sum of the last 24 readings and the intensity the maximum of the last six (0 without readings). Each other feature is the given value or its default: soil moisture 50, elevation 100, slope 5, distance to river 1000, flood frequency 0.1, drainage 0.5, urbanization 0.3. |
| EnsemblePredictor.Ensemble | backend/ml/ensemble_predictor.py:341-410 | The vote is 0.40/0.45/0.15 of the component outputs. The risk level is its band and the probability is the vote to three places, within 0.0005. The 24-hour horizon is the probability; the 6- and 12-hour horizons blend the LSTM horizons with the XGBoost score. The confidence is at most 0.95. The actions are the level's, 3 for Low and 5 otherwise. The data quality lies in [0.5, 1], and there is at least one limitation. |
| EnsemblePredictor.Predict | backend/ml/ensemble_predictor.py:295-410 | The components are the LSTM result on the rainfall and discharge series, the XGBoost result on the tabular features and the GNN result on the network. The prediction is the ensemble of those components, so its probability is their 0.40/0.45/0.15 vote rounded to three places. |
| EnsemblePredictor.PredictProbabilityInUnit | backend/ml/ensemble_predictor.py:295-356 | With non-negative readings, features in their natural ranges, station risks in [0, 1] and a non-negative decay, the reported ensemble probability is in [0, 1]. |
| EnsemblePredictor.ComponentsInUnit | backend/ml/ensemble_predictor.py:319-339 | Under the same assumptions the LSTM 24-hour horizon, the XGBoost score and the propagation lie in [0, 1]. |
| EnsemblePredictor.XgbScoreInUnit | backend/ml/ensemble_predictor.py:148-176 | Features in their natural ranges give a reported risk score in [0, 1]. |
| EnsemblePredictor.EnsembleProbabilityInUnit | backend/ml/ensemble_predictor.py:342-389 | Component outputs in [0, 1] give a reported ensemble probability in [0, 1]. |
| FloodForecast.ExtractCurrent | backend/routes/flood_forecast.py:61-67 | Every reading has a value. A given reading is passed through unchanged. Missing hourly rain is 0, missing three-hour rain is three times the hourly rain, and the other defaults are humidity 70, temperature 25, pressure 1013, wind 5 and cloud cover 50. |
| FloodForecast.ItemRain | backend/routes/flood_forecast.py:72-74 | Only the first eight forecast items are read, and missing rain counts as 0. |
| FloodForecast.PeakRate | backend/routes/flood_forecast.py:71-76 | The peak starts at 0 and bounds every rain / 3. It is 0 or one of those rates. |
| FloodForecast.AccumulateForecast | backend/routes/flood_forecast.py:70-76 | The loop computes the sum of the first eight items' rain and the peak hourly rate. Without a forecast list both are 0. |
| FloodForecast.LaterItemsIgnored | backend/routes/flood_forecast.py:72 | Items after the eighth change nothing. |
| FloodForecast.ForecastBounds | backend/routes/flood_forecast.py:70-76 | With rain in [0, hi] per step, the total is at most 8·hi and the peak at most hi/3. |
| FloodForecast.FracPart | backend/routes/flood_forecast.py:145-146 | `x % 1` lies in [0, 1) and differs from x by a whole number. |
| FloodForecast.GenerateEnvironmentalData | backend/routes/flood_forecast.py:117-147 | Water level is at most 0.95 and soil moisture at most 100. The daily rainfall is 24 × the hourly rain. Discharge is 150 + 15r + 2(humidity − 50). Elevation lies in [50, 250) and slope in [0.02, 0.07). |
| FloodForecast.MoreRainRaisesLevels | backend/routes/flood_forecast.py:123-133 | More recent rain raises discharge by 15 per unit and never lowers the water level or the soil moisture. Below the caps, more rain raises the water level by exactly 0.025 per unit and the soil moisture by exactly 2 per unit. |
| FloodForecast.EnvironmentalLevels | backend/routes/flood_forecast.py:120-133 | With effective rain r and humidity h, the water level is 0.35 + 0.002h + 0.025r capped at 0.95, and the soil moisture is h + 2r capped at 100. Each equals its cap exactly when its uncapped value reaches it. |
| FloodForecast.NoRainLevels | backend/routes/flood_forecast.py:120-133 | With no effective rain the soil moisture is the humidity (up to 100) and the water level is 0.35 + 0.002h (up to 0.95). |
| FloodForecast.TerrainRepeatsEachDegree | backend/routes/flood_forecast.py:145-146 | Elevation and slope repeat with every whole degree of latitude and longitude. |

## Left out

- HTTP requests, the FastAPI routers, Pydantic models and exception handling are not modelled. They are I/O and framework glue; the parsers take already-fetched data. The one exception is the IMD route's failure on an empty weather-conditions list, which is modelled as the `Failed` outcome.
- The random simulation generators (earthquakes, fires, weather systems and fire activity) are left out. They are nondeterministic.
- The demo time-series synthesis in the routes is left out. It is input data, not logic.
- XML parsing is left out: GDACS items are given as a list of already-extracted fields. `float()` parsing is a given parse-or-fail function.
- The haversine distance is left out. The FIRMS parser takes a distance function as a parameter.
- SmartAlerts.SmartAlertEngine.GetActiveAlerts: the 0.5-degree test uses squared distance instead of a square root.
- EnsemblePredictor.GnnPredict: the decay `exp(-d/100)` is a parameter, because the exponential is outside real arithmetic.
- EnsemblePredictor.EnsembleConfidence: `np.std` of the three model outputs is a parameter.
- AnomalyDetection.AnomalyDetector.Detect: the autoencoder's cosine-similarity pattern match is a given outcome (reconstruction error and trigger), because it needs square roots.
- Every `round(x, n)` of a reported value is modelled as `Text.Round`: rounding to n places with ties to even, on the exact real value. Python rounds the binary double, which can differ next to a tie. Comparisons the source makes on unrounded values (the XGBoost class, the ensemble risk level, the anomaly flag and level) are made on the unrounded values in the model too.
- Clock readings are parameters: `datetime.now()`, ISO timestamps and the `strftime` stamp inside the alert id.
- Titles, descriptions and messages that embed formatted floats are left out.
- SmartAlerts.SmsPayload: the percentage is `int(probability * 100)` taken on the exact real value. Python multiplies the binary double first, so for the probabilities 0.29, 0.57 and 0.58 it sends 28%, 56% and 57% where the model sends 29%, 57% and 58%. The model does not capture that floating-point truncation.
- Fields copied through from the feeds are not carried in the records: the USGS record's `updated`, `timezone`, `url`, `detail_url`, `significance`, `alert_level`, `felt_reports`, `intensity`, `mmi` and `magnitude_type` (backend/routes/external_apis.py:105-117). They are copied from the feed's properties with no logic.
- The alert's `expires` time (the clock plus 24 hours), `title`, `description`, the 6h/12h/24h `predictions`, `uncertainty` and `ai_reasoning` are not carried in the alert record (backend/ml/smart_alerts.py:250-297). The title is a fixed lookup of severity prefix and type suffix (backend/ml/smart_alerts.py:299-320); the others are the clock, formatted text, or values copied from the prediction.
- Icons in the instruction lists are left out; only the priority and action text are modelled.
- Text.RoundHalfEven: the location key rounds the exact real value. Python's `:.2f` rounds the binary double, which can differ right next to a tie, and renders "-0.00" distinctly from "0.00".
- SmartAlerts.SmsLead: the source file stores each leading emoji of the SMS templates as its UTF-8 bytes re-read as Windows-1252, so the characters sent are that text (for example "ðŸš¨"). The model uses exactly those characters.
- `str.lower()`, `str.upper()` and `str.strip()` are modelled for ASCII only (`Text.Lower`, `Text.Upper`, `Text.Strip`); other characters pass through unchanged.
- SmartAlerts.ConditionsMet: takes the calibrated threshold (0.72 divided by the regional factor) as an argument, so its own contract does not see the division. The draft alert passes `AdjustedThreshold`.
- EnsemblePredictor.LstmPredict: the humidity series the source accepts is not a parameter, because it is never read.
- EnsemblePredictor.LinearTrend: the slope's closed form is stated for series on a straight line (`LinearSeriesTrend`); for other series the contract gives the range and the short-series case.
- The ensemble's reasoning text, the nearest shelters, emergency contacts and safe zones are left out. They are fixed text or formatted strings with no decision logic.
- Outputs that only report values already computed are not carried in the records. These are the isolation result's per-feature `max_value`, `mean_value`, `value`, `baseline_mean` and `is_anomaly` fields (backend/ml/anomaly_detector.py:68-100), and the ensemble's `model_disagreement`, the spread rounded to three places (backend/ml/ensemble_predictor.py:405-408). The GNN's empty-network result (backend/ml/ensemble_predictor.py:235-242) is modelled by its probability, arrival and confidence; its "message" key, and the keys it lacks, are not.
- The fallback weather record returned when the OpenWeatherMap fetch fails is left out. It is fixed data on an I/O failure path.
- Dictionary outputs are records. Where the source mutates dictionaries shared by reference, the model keeps the values, so a cleared alert's status change seen through other references is not modelled.
- FloodForecast.FracPart: on reals `x % 1` is always below 1. Python's float `%` returns 1.0 for a tiny negative x (for example `-1e-20 % 1`), which would give elevation 250 and slope 0.07; that float effect is not modelled.
- EnsemblePredictor.Predict: the component models and the combination are separate functions (`LstmPredict`, `XgbPredict`, `GnnPredict`, `Ensemble`); `Predict` states which components it combines, and the combined properties are stated on `Ensemble`.
