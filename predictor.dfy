/** The inference wrapper around one fitted classifier, with its risk and confidence labels. */
module Inference {
  import opened Wrappers
  import opened Estimators
  import opened Ranking

  const High := "HIGH"
  const Medium := "MEDIUM"
  const Low := "LOW"

  /** Risk bucket of a churn probability; both boundaries are inclusive. */
  function RiskLevel(p: real): (r: string)
    ensures r == High <==> p >= 0.7
    ensures r == Medium <==> 0.4 <= p < 0.7
    ensures r == Low <==> p < 0.4
    ensures r in [High, Medium, Low]
  {
    if p >= 0.7 then High
    else if p >= 0.4 then Medium
    else Low
  }

  /** Position of a risk label in the order LOW < MEDIUM < HIGH. */
  function RiskRank(level: string): nat {
    if level == High then 2 else if level == Medium then 1 else 0
  }

  /** A larger probability never gives a lower bucket. */
  lemma RiskLevelMonotone(p: real, q: real)
    requires p <= q
    ensures RiskRank(RiskLevel(p)) <= RiskRank(RiskLevel(q))
  {
  }

  /** How far a probability is from a coin toss, scaled to [0, 1] for p in [0, 1]. */
  function Certainty(p: real): real { Abs(p - 0.5) * 2.0 }

  /** Confidence label of a probability. */
  function Confidence(p: real): (r: string)
    ensures r == "Very High" <==> Certainty(p) >= 0.8
    ensures r == "High" <==> 0.6 <= Certainty(p) < 0.8
    ensures r == "Medium" <==> 0.4 <= Certainty(p) < 0.6
    ensures r == "Low" <==> Certainty(p) < 0.4
  {
    var c := Certainty(p);
    if c >= 0.8 then "Very High"
    else if c >= 0.6 then "High"
    else if c >= 0.4 then "Medium"
    else "Low"
  }

  /** A probability and its complement get the same confidence label. */
  lemma ConfidenceSymmetric(p: real)
    ensures Confidence(p) == Confidence(1.0 - p)
  {
    assert Certainty(1.0 - p) == Certainty(p);
  }

  /** The result dictionary of one prediction; `confidence` is the optional extra key. */
  datatype Outcome = Outcome(
    churnPrediction: bool,
    churnProbability: real,
    noChurnProbability: real,
    riskLevel: string,
    modelName: string,
    confidence: Option<string>)

  /** The dictionary built for one feature row. */
  function Assemble(m: Classifier, modelName: string, x: seq<real>): (r: Outcome)
    ensures r.churnProbability == m.proba(x).1 && r.noChurnProbability == m.proba(x).0
    ensures r.churnPrediction == m.predict(x)
    ensures r.riskLevel == RiskLevel(r.churnProbability) && r.modelName == modelName
    ensures r.confidence == None
  {
    var (p0, p1) := m.proba(x);
    Outcome(m.predict(x), p1, p0, RiskLevel(p1), modelName, None)
  }

  const NotLoaded := "Model not loaded"

  /** What numpy raises when the first row of an empty matrix is taken. */
  const NoRows := "index 0 is out of bounds for axis 0 with size 0"

  class Predictor {
    var model: Option<Classifier>
    var modelName: string
    var featureNames: seq<string>

    /** `initial` stands for the model read from `model_path` when one is given. */
    constructor (initial: Option<Classifier>, modelName: string)
      ensures model == initial && this.modelName == modelName && featureNames == []
    {
      model := initial;
      this.modelName := modelName;
      featureNames := [];
    }

    method LoadModel(m: Classifier)
      modifies this
      ensures model == Some(m)
      ensures modelName == old(modelName) && featureNames == old(featureNames)
    {
      model := Some(m);
    }

    /** Prediction for the first row of `rows`; an empty matrix fails inside the estimator. */
    method PredictSingle(rows: seq<seq<real>>) returns (r: Result<Outcome, string>)
      ensures model.None? ==> r == Err(NotLoaded)
      ensures model.Some? && rows == [] ==> r == Err(NoRows)
      ensures model.Some? && rows != [] ==>
        r == Ok(Assemble(model.value, modelName, rows[0]))
      ensures r.Ok? ==> r.value.riskLevel in [High, Medium, Low] && r.value.modelName == modelName
    {
      if model.None? {
        return Err(NotLoaded);
      }
      if rows == [] {
        return Err(NoRows);
      }
      r := Ok(Assemble(model.value, modelName, rows[0]));
    }

    /** One result per row, in row order. */
    method PredictBatch(rows: seq<seq<real>>) returns (r: Result<seq<Outcome>, string>)
      ensures model.None? <==> r == Err(NotLoaded)
      ensures model.Some? ==> r.Ok? && |r.value| == |rows|
      ensures r.Ok? ==> forall i :: 0 <= i < |r.value| ==>
        r.value[i] == Assemble(model.value, modelName, rows[i])
      ensures r.Ok? ==> forall i :: 0 <= i < |r.value| ==>
        r.value[i].riskLevel == RiskLevel(r.value[i].churnProbability)
        && r.value[i].modelName == modelName
    {
      if model.None? {
        return Err(NotLoaded);
      }
      var m := model.value;
      var results: seq<Outcome> := [];
      var i := 0;
      while i < |rows|
        invariant 0 <= i <= |rows|
        invariant |results| == i
        invariant forall j :: 0 <= j < i ==> results[j] == Assemble(m, modelName, rows[j])
      {
        results := results + [Assemble(m, modelName, rows[i])];
        i := i + 1;
      }
      r := Ok(results);
    }

    /** `PredictSingle` with only the confidence key added. */
    method PredictWithConfidence(rows: seq<seq<real>>) returns (r: Result<Outcome, string>)
      ensures model.None? ==> r == Err(NotLoaded)
      ensures model.Some? && rows == [] ==> r.Err?
      ensures model.Some? && rows != [] ==>
        r == Ok(Assemble(model.value, modelName, rows[0])
                  .(confidence := Some(Confidence(model.value.proba(rows[0]).1))))
    {
      var base := PredictSingle(rows);
      if base.Err? {
        return base;
      }
      var o := base.value;
      r := Ok(o.(confidence := Some(Confidence(o.churnProbability))));
    }
  }
}
