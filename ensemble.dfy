/**
 * The ensemble scorer: feature derivation, the fixed-weight combination of
 * three classifiers' fraud probabilities, its own risk bucketing, and the
 * `fitted` flag that makes the first prediction load the stored models.
 *
 * The classifiers and the feature scaler are foreign library objects; a
 * fitted one is represented by the function it computes, and the
 * probabilities a classifier returns are only known to lie in [0, 1].
 */
module EnsembleScorer {
  import opened Results
  import opened RiskLevels

  /** One row of a data frame: column name to value. */
  type Row = map<string, real>

  type Probability = p: real | 0.0 <= p <= 1.0

  /** A classifier, before fitting or as the probability function it computes once fitted. */
  datatype Estimator = Untrained | Trained(predictProba: seq<real> -> Probability)

  /** The feature scaler, before fitting or as the transform it computes once fitted. */
  datatype Scaler = Unfitted | Fitted(transform: Row -> seq<real>)

  /** What training produces and the stored model files hold: three classifiers and the scaler. */
  datatype Artifacts = Artifacts(
    randomForest: seq<real> -> Probability,
    xgboost: seq<real> -> Probability,
    neuralNet: seq<real> -> Probability,
    scaler: Row -> seq<real>)

  /** The result of one ensemble prediction (the timestamp is not modelled). */
  datatype EnsemblePrediction = EnsemblePrediction(fraudProbability: real, riskLevel: RiskLevel)

  const RandomForest := "random_forest"
  const XGBoost := "xgboost"
  const NeuralNet := "neural_net"

  /** The models in the order the model dictionary is iterated. */
  const ModelNames: seq<string> := [RandomForest, XGBoost, NeuralNet]

  const EnsembleWeights: map<string, real> := map[RandomForest := 0.4, XGBoost := 0.4, NeuralNet := 0.2]

  // ---------------------------------------------------------------------------
  // feature_engineering

  const ClaimAmount := "claim_amount"
  const CustomerHistory := "customer_history"
  const ClaimHour := "claim_hour"
  const AmountPerHistory := "amount_per_history"
  const HourRisk := "hour_risk"

  /** Why feature derivation gives no row: a column it reads is absent, or the ratio's denominator is zero. */
  datatype FeatureError = MissingColumn(column: string) | ZeroDenominator

  /** The claim hours treated as high risk. */
  predicate IsRiskyHour(hour: real)
  {
    hour == 0.0 || hour == 1.0 || hour == 2.0 || hour == 3.0
  }

  /**
   * `feature_engineering` on one row: a new row with every original column
   * and two more, the amount per past claim (history plus one) and a 0/1
   * flag for a claim hour between 0 and 3.
   */
  function FeatureEngineering(row: Row): (r: Result<Row, FeatureError>)
    ensures ClaimAmount !in row ==> r == Failure(MissingColumn(ClaimAmount))
    ensures ClaimAmount in row && CustomerHistory !in row ==> r == Failure(MissingColumn(CustomerHistory))
    ensures ClaimAmount in row && CustomerHistory in row && ClaimHour !in row ==> r == Failure(MissingColumn(ClaimHour))
    ensures (ClaimAmount in row && CustomerHistory in row && ClaimHour in row && row[CustomerHistory] + 1.0 == 0.0) ==>
              r == Failure(ZeroDenominator)
    ensures r.Success? <==> ClaimAmount in row && CustomerHistory in row && ClaimHour in row
                            && row[CustomerHistory] + 1.0 != 0.0
    ensures r.Success? ==>
      && r.value.Keys == row.Keys + {AmountPerHistory, HourRisk}
      && (forall k :: k in row && k != AmountPerHistory && k != HourRisk ==> r.value[k] == row[k])
      && r.value[AmountPerHistory] * (row[CustomerHistory] + 1.0) == row[ClaimAmount]
      && (r.value[HourRisk] == 1.0 <==> IsRiskyHour(row[ClaimHour]))
      && (r.value[HourRisk] == 0.0 || r.value[HourRisk] == 1.0)
  {
    if ClaimAmount !in row then Failure(MissingColumn(ClaimAmount))
    else if CustomerHistory !in row then Failure(MissingColumn(CustomerHistory))
    else if ClaimHour !in row then Failure(MissingColumn(ClaimHour))
    else if row[CustomerHistory] + 1.0 == 0.0 then Failure(ZeroDenominator)
    else
      var ratio := row[ClaimAmount] / (row[CustomerHistory] + 1.0);
      var hourRisk := if IsRiskyHour(row[ClaimHour]) then 1.0 else 0.0;
      Success(row[AmountPerHistory := ratio][HourRisk := hourRisk])
  }

  /** A non-negative claim history never makes the ratio's denominator zero. */
  lemma NoZeroDenominator(row: Row)
    requires ClaimAmount in row && CustomerHistory in row && ClaimHour in row
    requires row[CustomerHistory] >= 0.0
    ensures FeatureEngineering(row).Success?
    ensures FeatureEngineering(row).value[AmountPerHistory] == row[ClaimAmount] / (row[CustomerHistory] + 1.0)
  {
  }

  // ---------------------------------------------------------------------------
  // The weighted combination

  /** Every named model is fitted and has a weight. */
  predicate Ready(names: seq<string>, models: map<string, Estimator>, weights: map<string, real>)
  {
    forall n :: n in names ==> n in models && models[n].Trained? && n in weights
  }

  /** Sum of the weights of the named models. */
  function WeightTotal(names: seq<string>, weights: map<string, real>): real
    requires forall n :: n in names ==> n in weights
  {
    if names == [] then 0.0
    else WeightTotal(names[..|names| - 1], weights) + weights[names[|names| - 1]]
  }

  /** The configured weights are non-negative and sum to one. */
  lemma EnsembleWeightsConvex()
    ensures forall n :: n in ModelNames ==> n in EnsembleWeights && EnsembleWeights[n] >= 0.0
    ensures WeightTotal(ModelNames, EnsembleWeights) == 1.0
  {
    assert [RandomForest][..0] == [];
    assert WeightTotal([RandomForest], EnsembleWeights) == 0.4;
    assert [RandomForest, XGBoost][..1] == [RandomForest];
    assert WeightTotal([RandomForest, XGBoost], EnsembleWeights) == 0.8;
    assert ModelNames[..2] == [RandomForest, XGBoost];
  }

  /** Sum over the named models of probability times weight: the value the prediction loop accumulates. */
  function Weighted(names: seq<string>, models: map<string, Estimator>, weights: map<string, real>, x: seq<real>): real
    requires Ready(names, models, weights)
  {
    if names == [] then 0.0
    else
      var last := names[|names| - 1];
      Weighted(names[..|names| - 1], models, weights, x) + models[last].predictProba(x) * weights[last]
  }

  /** A probability times a non-negative weight lies between zero and the weight. */
  lemma ScaledProbability(p: Probability, w: real)
    requires w >= 0.0
    ensures 0.0 <= p * w <= w
  {
  }

  /** With non-negative weights the combination lies between zero and the total weight. */
  lemma {:induction false} WeightedWithinTotal(names: seq<string>, models: map<string, Estimator>,
                                              weights: map<string, real>, x: seq<real>)
    requires Ready(names, models, weights)
    requires forall n :: n in names ==> weights[n] >= 0.0
    ensures 0.0 <= Weighted(names, models, weights, x) <= WeightTotal(names, weights)
  {
    if names != [] {
      var last, init := names[|names| - 1], names[..|names| - 1];
      assert last in names && forall n :: n in init ==> n in names;
      WeightedWithinTotal(init, models, weights, x);
      var p, w := models[last].predictProba(x), weights[last];
      ScaledProbability(p, w);
      assert Weighted(names, models, weights, x) == Weighted(init, models, weights, x) + p * w;
      assert WeightTotal(names, weights) == WeightTotal(init, weights) + w;
      assert 0.0 <= Weighted(init, models, weights, x) <= WeightTotal(init, weights);
    }
  }

  /** When every model returns the same probability p, the combination is p times the total weight. */
  lemma {:induction false} WeightedOfAgreeingModels(names: seq<string>, models: map<string, Estimator>,
                                                   weights: map<string, real>, x: seq<real>, p: real)
    requires Ready(names, models, weights)
    requires forall n :: n in names ==> models[n].predictProba(x) == p
    ensures Weighted(names, models, weights, x) == p * WeightTotal(names, weights)
  {
    if names != [] {
      var last := names[|names| - 1];
      WeightedOfAgreeingModels(names[..|names| - 1], models, weights, x, p);
      assert Weighted(names, models, weights, x)
          == p * WeightTotal(names[..|names| - 1], weights) + p * weights[last];
    }
  }

  /** With the configured weights the ensemble probability lies in [0, 1], and unanimous models give their common value. */
  lemma EnsembleIsConvex(models: map<string, Estimator>, x: seq<real>, p: real)
    requires Ready(ModelNames, models, EnsembleWeights)
    ensures 0.0 <= Weighted(ModelNames, models, EnsembleWeights, x) <= 1.0
    ensures (forall n :: n in ModelNames ==> models[n].predictProba(x) == p) ==>
              Weighted(ModelNames, models, EnsembleWeights, x) == p
  {
    EnsembleWeightsConvex();
    WeightedWithinTotal(ModelNames, models, EnsembleWeights, x);
    if forall n :: n in ModelNames ==> models[n].predictProba(x) == p {
      WeightedOfAgreeingModels(ModelNames, models, EnsembleWeights, x, p);
    }
  }

  /** The loop of `predict_fraud`: add up probability times weight, one model at a time. */
  method CombineProbabilities(names: seq<string>, models: map<string, Estimator>,
                              weights: map<string, real>, x: seq<real>) returns (weightedProbs: real)
    requires Ready(names, models, weights)
    ensures weightedProbs == Weighted(names, models, weights, x)
  {
    weightedProbs := 0.0;
    for i := 0 to |names|
      invariant Ready(names[..i], models, weights)
      invariant weightedProbs == Weighted(names[..i], models, weights, x)
    {
      assert names[..i + 1][..i] == names[..i];
      var name := names[i];
      weightedProbs := weightedProbs + models[name].predictProba(x) * weights[name];
    }
    assert names[..|names|] == names;
  }

  /**
   * What `predict_fraud` computes once the models are loaded: derive the
   * features, scale them, combine the three probabilities and bucket the
   * unrounded result.
   */
  function Score(models: map<string, Estimator>, scale: Row -> seq<real>, claim: Row): (r: Result<EnsemblePrediction, FeatureError>)
    requires Ready(ModelNames, models, EnsembleWeights)
    ensures r.Failure? <==> FeatureEngineering(claim).Failure?
    ensures r.Failure? ==> r.error == FeatureEngineering(claim).error
    ensures r.Success? ==>
              r.value.fraudProbability == Weighted(ModelNames, models, EnsembleWeights, scale(FeatureEngineering(claim).value))
    ensures r.Success? ==> 0.0 <= r.value.fraudProbability <= 1.0
    ensures r.Success? ==> r.value.riskLevel == EnsembleRiskLevel(r.value.fraudProbability)
  {
    match FeatureEngineering(claim)
    case Failure(e) => Failure(e)
    case Success(features) =>
      var x := scale(features);
      EnsembleIsConvex(models, x, 0.0);
      var p := Weighted(ModelNames, models, EnsembleWeights, x);
      Success(EnsemblePrediction(p, EnsembleRiskLevel(p)))
  }

  /** The model dictionary built from loaded or freshly trained artifacts. */
  function ModelsOf(a: Artifacts): (m: map<string, Estimator>)
    ensures Ready(ModelNames, m, EnsembleWeights)
  {
    map[RandomForest := Trained(a.randomForest), XGBoost := Trained(a.xgboost), NeuralNet := Trained(a.neuralNet)]
  }

  /** The ensemble scorer object with its lazily loaded models. */
  class FraudDetector {
    var models: map<string, Estimator>
    var ensembleWeights: map<string, real>
    var scaler: Scaler
    var fitted: bool

    /** Weights never change, and once `fitted` is set every model and the scaler are usable. */
    ghost predicate Valid()
      reads this
    {
      && ensembleWeights == EnsembleWeights
      && models.Keys == {RandomForest, XGBoost, NeuralNet}
      && (fitted ==> scaler.Fitted? && Ready(ModelNames, models, ensembleWeights))
    }

    constructor ()
      ensures Valid() && !fitted
      ensures models == map[RandomForest := Untrained, XGBoost := Untrained, NeuralNet := Untrained]
      ensures scaler == Unfitted
    {
      models := map[RandomForest := Untrained, XGBoost := Untrained, NeuralNet := Untrained];
      ensembleWeights := EnsembleWeights;
      scaler := Unfitted;
      fitted := false;
    }

    /** `train_models`: install the fitted scaler and classifiers and set `fitted`. */
    method TrainModels(trained: Artifacts)
      requires Valid()
      modifies this
      ensures Valid() && fitted
      ensures models == ModelsOf(trained) && scaler == Fitted(trained.scaler)
    {
      scaler := Fitted(trained.scaler);
      models := ModelsOf(trained);
      fitted := true;
    }

    /** `load_models`: replace the models and scaler by the stored ones and set `fitted`. */
    method LoadModels(stored: Artifacts)
      requires Valid()
      modifies this
      ensures Valid() && fitted
      ensures models == ModelsOf(stored) && scaler == Fitted(stored.scaler)
    {
      models := ModelsOf(stored);
      scaler := Fitted(stored.scaler);
      fitted := true;
    }

    /**
     * `predict_fraud`: load the stored models only if not yet fitted, then
     * score the claim. A detector that is already fitted is left untouched,
     * so a second prediction never reloads.
     */
    method PredictFraud(claim: Row, stored: Artifacts) returns (r: Result<EnsemblePrediction, FeatureError>)
      requires Valid()
      modifies this
      ensures Valid() && fitted
      ensures old(fitted) ==> unchanged(this)
      ensures !old(fitted) ==> models == ModelsOf(stored) && scaler == Fitted(stored.scaler)
      ensures r == Score(models, scaler.transform, claim)
      ensures r.Success? ==> 0.0 <= r.value.fraudProbability <= 1.0
    {
      if !fitted {
        LoadModels(stored);
      }
      var features := FeatureEngineering(claim);
      if features.Failure? {
        return Failure(features.error);
      }
      var x := scaler.transform(features.value);
      var fraudProb := CombineProbabilities(ModelNames, models, ensembleWeights, x);
      r := Success(EnsemblePrediction(fraudProb, EnsembleRiskLevel(fraudProb)));
    }
  }
}
