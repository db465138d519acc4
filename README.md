# Insurance-claim fraud scoring, modelled in Dafny

This project models the scoring core of an insurance-claim fraud detection
service: a rule-based heuristic scorer with the in-memory claim ledger of
its web service, and an ensemble scorer that combines three trained
classifiers with fixed weights.

- `risk.dfy` (module `RiskLevels`): the four risk buckets, the two
  threshold policies (the heuristic one with inclusive lower bounds 0.4 /
  0.6 / 0.8, the ensemble one with exclusive upper bounds 0.3 / 0.6 / 0.85)
  and the recommendation text of each bucket.
- `heuristic.dfy` (module `HeuristicScorer`): `simple_fraud_detector` as a
  sum of per-rule increments, the jitter, the clamp to [0, 1] and the
  bucketing. The two random draws (jitter from [-0.05, 0.05], confidence
  from [0.85, 0.98]) are parameters whose ranges are preconditions.
- `ledger.dfy` (module `ClaimLedger`): the module-level claim list as the
  class `ClaimsDatabase` whose `CreateClaim` appends a record with id
  `len + 1`; `get_analytics` as a function over the list; `fraud_statistics`
  as a method whose loop builds the risk histogram in place.
- `ensemble.dfy` (module `EnsembleScorer`): `feature_engineering` on one
  row, the weighted-sum loop of `predict_fraud`, the convexity of the
  0.4 / 0.4 / 0.2 combination, and the class `FraudDetector` with the
  `fitted` flag that makes the first prediction load the stored models.
- `results.dfy` (module `Results`): `Option` and `Result`.

Two features of the code shape the model:

- `elif amount > 100000` (backend/app/main.py:68) can never be taken,
  because every such amount has already matched `amount > 50000`. So every
  amount above 50000, including 150000, adds exactly 0.3 and none adds 0.5.
  The model keeps this branch structure and proves the branch unreachable
  (`HeuristicScorer.AmountRisk`, `HeuristicScorer.UpperAmountTierUnreachable`).
- The ensemble detector has no weight-sum validation, no load-error type,
  no separate fitting state and no lock around lazy loading; neither does
  the model. It has a single `fitted` flag that `train_models` and
  `load_models` set.

## Model

| member | source | states |
|---|---|---|
| RiskLevels.HeuristicRiskLevel | backend/app/main.py:98-110 | each bucket holds exactly its score interval: Critical iff score >= 0.8, High iff 0.6 <= score < 0.8, Medium iff 0.4 <= score < 0.6, Low iff score < 0.4 (so 0.4 is Medium and 0.8 Critical) |
| RiskLevels.HeuristicRiskMonotone | backend/app/main.py:99-110 | a higher score never gets a lower bucket |
| RiskLevels.Recommendation | backend/app/main.py:99-110 | the advice is a function of the bucket alone, and each advice text identifies its bucket (Critical "Immediate investigation required" ... Low "Standard processing") |
| RiskLevels.EnsembleRiskLevel | backend/app/models/api/core/db/ml/fraud_detector.py:95-103 | Low iff score < 0.3, Medium iff 0.3 <= score < 0.6, High iff 0.6 <= score < 0.85, Critical iff score >= 0.85 |
| RiskLevels.EnsembleRiskMonotone | backend/app/models/api/core/db/ml/fraud_detector.py:95-103 | a higher score never gets a lower ensemble bucket |
| RiskLevels.PoliciesDiffer | backend/app/main.py:99-110 | the two policies are distinct: 0.3 is Low for the heuristic policy and Medium for the ensemble policy; 0.8 is Critical for the heuristic policy and High for the ensemble one |
| HeuristicScorer.Lower | backend/app/main.py:59-60 | lower-casing keeps the length, maps each character and leaves no upper-case ASCII letter |
| HeuristicScorer.LowerIdempotent | backend/app/main.py:59-60 | lower-casing an already lower-cased text changes nothing |
| HeuristicScorer.ContainsIff | backend/app/main.py:87 | the substring test `word in text` holds exactly when `word` occurs at some position of `text` |
| HeuristicScorer.AmountRisk | backend/app/main.py:65-69 | amount > 50000 adds 0.3 and anything else adds 0; 0.5 is never added |
| HeuristicScorer.UpperAmountTierUnreachable | backend/app/main.py:66-69 | an amount above 100000 still adds exactly 0.3: the `elif amount > 100000` branch is dead |
| HeuristicScorer.AgeRisk | backend/app/main.py:71-73 | age < 25 or age > 65 adds 0.2; ages 25 to 65 inclusive add nothing |
| HeuristicScorer.TenureRisk | backend/app/main.py:75-79 | tenure < 1 adds 0.3, tenure 1 or 2 adds 0.1, tenure >= 3 adds nothing |
| HeuristicScorer.WitnessRisk | backend/app/main.py:81-83 | exactly zero witnesses adds 0.2 |
| HeuristicScorer.DescriptionRisk | backend/app/main.py:85-88 | adds 0.1 iff the lower-cased description contains one of "total loss", "stolen", "fire", "vandalism", and never more than 0.1 |
| HeuristicScorer.LocationRisk | backend/app/main.py:90-92 | adds 0.1 iff the lower-cased location contains "remote" or "parking lot", and never more than 0.1 |
| HeuristicScorer.KeywordRulesIgnoreCase | backend/app/main.py:59-60 | the keyword rules give the same increment for a text and its lower-cased form |
| HeuristicScorer.BaseScore | backend/app/main.py:62-92 | the pre-jitter score lies in [0, 1.2] |
| HeuristicScorer.Clamp | backend/app/main.py:96 | the result lies in [0, 1], equals the input inside [0, 1], is 0 below and 1 above |
| HeuristicScorer.FraudScore | backend/app/main.py:94-96 | for any jitter in [-0.05, 0.05] the score lies in [0, 1]; it is base + jitter when that is in [0, 1], else the nearer bound |
| HeuristicScorer.SimpleFraudDetector | backend/app/main.py:50-122 | probability equal to the clamped jittered score `FraudScore(c, jitter)`, hence in [0, 1], bucket computed from that probability by the heuristic policy, advice from the bucket, confidence equal to the injected draw (so independent of the score) and in [0.85, 0.98], version "ensemble_v1.0" |
| HeuristicScorer.HighBaseScoreIsCritical | backend/app/main.py:96-101 | with zero jitter, a pre-jitter score of at least 0.8 yields Critical and "Immediate investigation required" |
| HeuristicScorer.ExampleClaimScore | backend/app/main.py:18-24 | the schema's example claim (75000, age 25, tenure 2, no witnesses, "Total loss in parking lot", "Remote area") scores 0.8 before jitter |
| ClaimLedger.IdsUnique | backend/app/main.py:184 | in a ledger built by appending with id `len + 1`, no two records share an id |
| ClaimLedger.NewRecordConsistent | backend/app/main.py:183-192 | a record built from a scored claim holds a score in [0, 1] together with the heuristic bucket of that score and the advice of that bucket |
| ClaimLedger.ClaimsDatabase.constructor | backend/app/main.py:125 | the ledger starts empty |
| ClaimLedger.ClaimsDatabase.CreateClaim | backend/app/main.py:176-202 | the new id is old length + 1, exactly one record is appended after the unchanged earlier ones, and ids stay 1..n in insertion order with consistent scores |
| ClaimLedger.CountWhere | backend/app/main.py:224-225 | a filtered count never exceeds the number of claims |
| ClaimLedger.CountWhereIndices | backend/app/main.py:224-225 | the count equals the number of positions whose claim passes the filter |
| ClaimLedger.CountWhereMonotone | backend/app/main.py:224-225 | a filter that keeps at least what another keeps counts at least as many claims |
| ClaimLedger.CountWhereAppend | backend/app/main.py:195 | appending a claim raises a count by one exactly when the claim passes the filter |
| ClaimLedger.CountLevel | backend/app/main.py:247-249 | a bucket's count never exceeds the number of claims |
| ClaimLedger.LevelCountsSumToTotal | backend/app/main.py:245-249 | the four bucket counts add up to the number of claims |
| ClaimLedger.SumScores | backend/app/main.py:226 | when every score is in [0, 1] the sum lies in [0, n] |
| ClaimLedger.SumAmounts | backend/app/main.py:255-256 | the total claim value is non-negative when every amount is |
| ClaimLedger.Analytics | backend/app/main.py:212-237 | all zeros for an empty ledger; otherwise total = length, fraud_detected = number of claims with score >= 0.5, high_risk = number of High or Critical claims, both at most the total, savings = 50000 * fraud_detected, average score = sum of scores / total |
| ClaimLedger.AverageScoreInUnitInterval | backend/app/main.py:226 | on a well-formed ledger the average score lies in [0, 1] |
| ClaimLedger.HighRiskClaimsAreFraud | backend/app/main.py:224-225 | on a well-formed ledger high_risk_claims <= fraud_detected, since High and Critical need a score of at least 0.6 |
| ClaimLedger.AnalyticsAfterAppend | backend/app/main.py:223-225 | appending a claim adds one to the total and adds that claim's own contribution to the fraud and high-risk counts |
| ClaimLedger.CountLevelAppend | backend/app/main.py:247-249 | one more claim raises the count of its own bucket by one and no other |
| ClaimLedger.Histogram | backend/app/main.py:245-249 | the histogram holds exactly the buckets that occur, each with its number of claims, and its counts add up to the number of claims |
| ClaimLedger.HistogramStep | backend/app/main.py:248-249 | the histogram of one more claim is the old histogram with that claim's bucket incremented (`by_risk.get(risk, 0) + 1`) |
| ClaimLedger.Statistics | backend/app/main.py:242-258 | nothing for an empty ledger; otherwise total = length, risk distribution equal to the histogram (counts summing to the total), detection rate = 100 * (claims scored at least 0.5) / total, average claim amount = sum of amounts / total, total claims value = sum of amounts, prevented fraud = 50000 per claim scored at least 0.5 |
| ClaimLedger.FraudStatistics | backend/app/main.py:240-258 | the loop that updates the histogram one claim at a time ends with exactly the statistics above |
| EnsembleScorer.FeatureEngineering | backend/app/models/api/core/db/ml/fraud_detector.py:43-47 | a missing column is reported by name in reading order; with all columns present and history + 1 = 0 the error is ZeroDenominator; otherwise the result has every input column unchanged plus exactly amount_per_history (amount / (history + 1)) and hour_risk, which is 1 for hours 0-3 and 0 otherwise |
| EnsembleScorer.NoZeroDenominator | backend/app/models/api/core/db/ml/fraud_detector.py:45 | with a non-negative history the denominator is at least 1 and derivation succeeds |
| EnsembleScorer.EnsembleWeightsConvex | backend/app/models/api/core/db/ml/fraud_detector.py:21-25 | the weights 0.4, 0.4, 0.2 are non-negative and sum to 1 |
| EnsembleScorer.WeightedWithinTotal | backend/app/models/api/core/db/ml/fraud_detector.py:81-84 | with non-negative weights and probabilities in [0, 1], the weighted sum lies between 0 and the total weight |
| EnsembleScorer.WeightedOfAgreeingModels | backend/app/models/api/core/db/ml/fraud_detector.py:81-84 | if every model returns p, the weighted sum is p times the total weight |
| EnsembleScorer.EnsembleIsConvex | backend/app/models/api/core/db/ml/fraud_detector.py:81-86 | with the configured weights the ensemble probability lies in [0, 1], and equals p when all three models return p |
| EnsembleScorer.CombineProbabilities | backend/app/models/api/core/db/ml/fraud_detector.py:81-84 | the loop's accumulated value is the weighted sum over the models in iteration order |
| EnsembleScorer.Score | backend/app/models/api/core/db/ml/fraud_detector.py:77-90 | fails exactly when feature derivation fails, with its error; otherwise the probability is the weighted sum of the three models on the scaled derived features, lies in [0, 1], and the bucket is the ensemble policy applied to the unrounded probability |
| EnsembleScorer.ModelsOf | backend/app/models/api/core/db/ml/fraud_detector.py:65-69 | the loaded dictionary holds a fitted model, with a weight, under each of the three names |
| EnsembleScorer.FraudDetector.constructor | backend/app/models/api/core/db/ml/fraud_detector.py:15-27 | three unfitted models, the fixed weights, an unfitted scaler, `fitted` false |
| EnsembleScorer.FraudDetector.TrainModels | backend/app/models/api/core/db/ml/fraud_detector.py:49-62 | installs the fitted scaler and models and sets `fitted` |
| EnsembleScorer.FraudDetector.LoadModels | backend/app/models/api/core/db/ml/fraud_detector.py:64-71 | replaces models and scaler by the stored ones and sets `fitted` |
| EnsembleScorer.FraudDetector.PredictFraud | backend/app/models/api/core/db/ml/fraud_detector.py:73-93 | loads only when not fitted (a fitted detector is left unchanged, so a second call never reloads), is fitted afterwards, and returns the ensemble score of the claim |

## Left out

- The web layer: the FastAPI application, its routes (`read_root`, `health_check`, `api_status`, `list_claims`, the `predict_fraud` endpoint wrapper), the pydantic request models and their validation, the `HTTPException` wrapping and the `uvicorn` entry point. They carry no scoring logic.
- Clock readings: processing time, `created_at` and the prediction timestamp are not in the model's records.
- The random number generator: the jitter and the confidence are parameters restricted to the ranges of the uniform draws.
- Rounding and formatting: `round(..., 3)` of the heuristic probability and of the average score, `round(..., 4)` of the ensemble probability, `round(..., 2)` of the confidence, and the currency and percentage strings. The model keeps exact unrounded values, so a ledger record stores the unrounded score. The Python service stores the rounded score next to a bucket computed from the unrounded one, so a stored 0.8 can sit beside "High".
- Floating point: scores, amounts and weights are exact reals, so sums such as 0.3 + 0.1 + 0.2 + 0.1 + 0.1 are exactly 0.8 here, with none of the last-bit error of binary floats; NaN and infinite inputs are not modelled.
- HeuristicScorer.Lower: lower-cases ASCII letters only, where Python's `str.lower` also folds other Unicode letters.
- EnsembleScorer.FeatureEngineering: models a data frame of one row (the shape `predict_fraud` uses); a larger frame is the same derivation applied to each row. With a history of -1 pandas produces an infinite or NaN ratio without raising; the model reports `ZeroDenominator` instead.
- The classifiers and the scaler (random forest, XGBoost, MLP, `StandardScaler`) are represented only by the functions they compute once fitted. Fitting, `cross_val_score` and its printed AUC, `evaluate_model` with `classification_report` and `roc_auc_score`, and the joblib `dump`/`load` files are foreign library calls; training and loading take the resulting artifacts as a parameter.
- EnsembleScorer.FraudDetector.LoadModels: a missing or unreadable model file makes joblib raise; since the stored artifacts are a parameter, that exception is not modelled.
- Iteration order of the model dictionary is modelled by the fixed sequence `random_forest`, `xgboost`, `neural_net`.
- ClaimLedger.FraudStatistics: the `by_risk` dictionary keeps its buckets in order of first occurrence, and that order reaches the returned `risk_distribution`; the model's `map` holds the same buckets and counts but no order.
- `generate_synthetic_data` (numpy random sampling), the SQLAlchemy schema in backend/app/models/__init__.py and the command-line driver backend/app/models/api/core/db/ml/train_models.py are not part of this model.
- Concurrency: the code has no locking around lazy loading, and the model is sequential.
