/**
 * The four stored tables (customers, predictions, model metrics, training jobs):
 * one datatype per row, the column defaults applied when a row is inserted, the
 * `to_dict` projections the routes return, and the database the routes share.
 */
module Records {
  import opened Wrappers
  import opened Values

  /** A stored datetime: microseconds since the epoch (UTC) and its `isoformat()` text. */
  datatype Timestamp = Timestamp(ticks: nat, iso: string)

  /** `t.isoformat() if t else None`. */
  function IsoOrNone(t: Option<Timestamp>): (v: Value)
    ensures v == Null <==> t.None?
    ensures t.Some? ==> v == Str(t.value.iso)
  {
    if t.Some? then Str(t.value.iso) else Null
  }

  /** Sort key for `ORDER BY <timestamp> DESC`: a NULL timestamp sorts after every date. */
  function TimeKey(t: Option<Timestamp>): (k: real)
    ensures t.None? ==> k < 0.0
    ensures t.Some? ==> k >= 0.0
  {
    if t.Some? then t.value.ticks as real else -1.0
  }

  /** Sort key for `ORDER BY prediction_date DESC`. */
  function PredictionKey(p: Prediction): real { TimeKey(p.predictionDate) }

  function OptText(s: Option<string>): Value { if s.Some? then Str(s.value) else Null }
  function OptNum(x: Option<real>): Value { if x.Some? then Num(x.value) else Null }

  // -------------------------------------------------------------- customers

  /** A `customers` row; the Boolean columns hold their default `False` when not given. */
  datatype Customer = Customer(
    id: int, customerId: string,
    gender: Option<string>, seniorCitizen: bool, partner: bool, dependents: bool,
    tenure: Option<int>, contractType: Option<string>, paymentMethod: Option<string>,
    paperlessBilling: bool,
    phoneService: bool, multipleLines: bool, internetService: Option<string>,
    onlineSecurity: bool, onlineBackup: bool, deviceProtection: bool, techSupport: bool,
    streamingTv: bool, streamingMovies: bool,
    monthlyCharges: Option<real>, totalCharges: Option<real>,
    churnStatus: bool,
    createdAt: Option<Timestamp>, updatedAt: Option<Timestamp>)

  /** `customer_id` is unique (and, being a `string`, never NULL). */
  predicate CustomersValid(t: seq<Customer>) {
    forall i, j :: 0 <= i < j < |t| ==> t[i].customerId != t[j].customerId
  }

  // ------------------------------------------------------------ predictions

  /** A `predictions` row; `customer_id` is NOT NULL, so it is a `string` here. */
  datatype Prediction = Prediction(
    id: int, customerId: string,
    churnProbability: real, churnPrediction: bool, riskLevel: Option<string>,
    modelName: Option<string>, modelVersion: Option<string>,
    features: Value, topFeatures: Value, shapValues: Value, recommendations: Value,
    predictionDate: Option<Timestamp>)

  /**
   * The arguments of a `Prediction(...)` construction in the routes. None of them
   * passes `shap_values`; `modelName` is None when the argument is not passed.
   */
  datatype PredictionDraft = PredictionDraft(
    customerId: Option<string>,
    churnProbability: real, churnPrediction: bool, riskLevel: Option<string>,
    modelName: Option<string>, modelVersion: Option<string>,
    features: Value, topFeatures: Value, recommendations: Value)

  const DefaultModelName := "XGBoost"
  const NullCustomerId := "(sqlite3.IntegrityError) NOT NULL constraint failed: predictions.customer_id"

  /**
   * `db.add(Prediction(...))` then commit: the row gets the next id, `prediction_date`
   * defaults to now, `model_name` to "XGBoost", `shap_values` stays NULL; a missing
   * customer id violates NOT NULL and nothing is stored.
   */
  function InsertPrediction(t: seq<Prediction>, d: PredictionDraft, now: Timestamp): (r: Result<seq<Prediction>, string>)
    ensures r.Err? <==> d.customerId.None?
    ensures r.Ok? ==> |r.value| == |t| + 1 && r.value[..|t|] == t
    ensures r.Ok? ==> r.value[|t|] == StoredRow(d, |t| + 1, now)
    ensures r.Ok? ==> r.value[|t|].customerId == d.customerId.value
    ensures r.Ok? ==> r.value[|t|].shapValues == Null
    ensures r.Ok? ==> r.value[|t|].modelName == Some(d.modelName.GetOr(DefaultModelName))
    ensures r.Ok? ==> r.value[|t|].predictionDate == Some(now)
  {
    if d.customerId.None? then Err(NullCustomerId)
    else Ok(t + [StoredRow(d, |t| + 1, now)])
  }

  /** The row a draft with a customer id becomes under the given row id. */
  function StoredRow(d: PredictionDraft, id: int, now: Timestamp): Prediction
    requires d.customerId.Some?
  {
    Prediction(id, d.customerId.value,
               d.churnProbability, d.churnPrediction, d.riskLevel,
               Some(d.modelName.GetOr(DefaultModelName)), d.modelVersion,
               d.features, d.topFeatures, Null, d.recommendations,
               Some(now))
  }

  /** Inserting appends: every earlier row, and its id, is unchanged. */
  lemma InsertPredictionIds(t: seq<Prediction>, d: PredictionDraft, now: Timestamp)
    requires forall i :: 0 <= i < |t| ==> t[i].id == i + 1
    requires InsertPrediction(t, d, now).Ok?
    ensures var u := InsertPrediction(t, d, now).value;
      forall i :: 0 <= i < |u| ==> u[i].id == i + 1
  {
  }

  const PredictionKeys := ["id", "customer_id", "churn_probability", "churn_prediction",
                           "risk_level", "model_name", "model_version", "features",
                           "top_features", "recommendations", "prediction_date"]

  /** `Prediction.to_dict`. */
  function PredictionToDict(p: Prediction): (d: Dict<Value>)
    ensures Keys(d) == PredictionKeys
  {
    [("id", Num(p.id as real)), ("customer_id", Str(p.customerId)),
     ("churn_probability", Num(p.churnProbability)), ("churn_prediction", Bool(p.churnPrediction)),
     ("risk_level", OptText(p.riskLevel)), ("model_name", OptText(p.modelName)),
     ("model_version", OptText(p.modelVersion)), ("features", p.features),
     ("top_features", p.topFeatures), ("recommendations", p.recommendations),
     ("prediction_date", IsoOrNone(p.predictionDate))]
  }

  /** The projection leaves out `shap_values`: its key is absent and its value cannot show. */
  lemma PredictionToDictOmitsShap(p: Prediction, v: Value)
    ensures "shap_values" !in Keys(PredictionToDict(p))
    ensures PredictionToDict(p.(shapValues := v)) == PredictionToDict(p)
  {
    assert forall i :: 0 <= i < |PredictionKeys| ==> PredictionKeys[i] != "shap_values" by {
      assert "shap_values"[0] != "id"[0] && "shap_values"[0] != "customer_id"[0];
      assert "shap_values"[0] != "churn_probability"[0] && "shap_values"[0] != "churn_prediction"[0];
      assert "shap_values"[0] != "risk_level"[0] && "shap_values"[0] != "model_name"[0];
      assert "shap_values"[0] != "model_version"[0] && "shap_values"[0] != "features"[0];
      assert "shap_values"[0] != "top_features"[0] && "shap_values"[0] != "recommendations"[0];
      assert "shap_values"[0] != "prediction_date"[0];
    }
  }

  /** `prediction_date` reads back as its ISO text, or None when the row has no date. */
  lemma PredictionDateRendered(p: Prediction)
    ensures Get(PredictionToDict(p), "prediction_date") == Some(IsoOrNone(p.predictionDate))
    ensures Get(PredictionToDict(p), "prediction_date") == Some(Null) <==> p.predictionDate.None?
  {
  }

  // ---------------------------------------------------------- model metrics

  /** A `model_metrics` row; every column but `model_name` may be NULL. */
  datatype ModelMetric = ModelMetric(
    id: int, modelName: string, modelVersion: Option<string>,
    accuracy: Option<real>, precision: Option<real>, recall: Option<real>,
    f1Score: Option<real>, rocAuc: Option<real>,
    truePositives: Option<int>, trueNegatives: Option<int>,
    falsePositives: Option<int>, falseNegatives: Option<int>,
    confusionMatrix: Value, classificationReport: Value, featureImportance: Value,
    trainingSamples: Option<int>, testSamples: Option<int>, trainingTimeSeconds: Option<real>,
    trainedAt: Option<Timestamp>, notes: Option<string>)

  const ModelMetricKeys := ["id", "model_name", "model_version", "accuracy", "precision",
                            "recall", "f1_score", "roc_auc", "trained_at"]

  /** `ModelMetric.to_dict`: identity, the five headline scores and the training date. */
  function ModelMetricToDict(m: ModelMetric): (d: Dict<Value>)
    ensures Keys(d) == ModelMetricKeys
  {
    [("id", Num(m.id as real)), ("model_name", Str(m.modelName)),
     ("model_version", OptText(m.modelVersion)),
     ("accuracy", OptNum(m.accuracy)), ("precision", OptNum(m.precision)),
     ("recall", OptNum(m.recall)), ("f1_score", OptNum(m.f1Score)),
     ("roc_auc", OptNum(m.rocAuc)), ("trained_at", IsoOrNone(m.trainedAt))]
  }

  /** `trained_at` reads back as its ISO text, or None when the row has no date. */
  lemma ModelMetricDateRendered(m: ModelMetric)
    ensures Get(ModelMetricToDict(m), "trained_at") == Some(IsoOrNone(m.trainedAt))
    ensures Get(ModelMetricToDict(m), "trained_at") == Some(Null) <==> m.trainedAt.None?
  {
  }

  /**
   * Only the headline columns reach the projection: two rows that agree on them
   * project alike, whatever their confusion counts, importances or training sizes.
   */
  lemma ModelMetricToDictHeadline(m: ModelMetric, n: ModelMetric)
    requires m.id == n.id && m.modelName == n.modelName && m.modelVersion == n.modelVersion
    requires m.accuracy == n.accuracy && m.precision == n.precision && m.recall == n.recall
    requires m.f1Score == n.f1Score && m.rocAuc == n.rocAuc && m.trainedAt == n.trainedAt
    ensures ModelMetricToDict(m) == ModelMetricToDict(n)
  {
  }

  // ---------------------------------------------------------- training jobs

  /** The four values the routes write into `training_jobs.status`. */
  datatype JobStatus = Pending | Running | Completed | Failed

  function StatusText(s: JobStatus): (t: string)
    ensures s == Pending <==> t == "pending"
  {
    match s
    case Pending => "pending"
    case Running => "running"
    case Completed => "completed"
    case Failed => "failed"
  }

  /** A `training_jobs` row; `results` is NULL (`Null`) until a run completes. */
  datatype TrainingJob = TrainingJob(
    id: int, jobId: string, status: JobStatus, progress: real,
    modelsToTrain: seq<string>, currentModel: Option<string>,
    results: Value, errorMessage: Option<string>,
    createdAt: Option<Timestamp>, startedAt: Option<Timestamp>, completedAt: Option<Timestamp>)

  /**
   * `TrainingJob(job_id=..., models_to_train=...)` once inserted: status defaults to
   * pending, progress to 0.0, `created_at` to now, and every other column is NULL.
   */
  function NewTrainingJob(id: int, jobId: string, models: seq<string>, now: Timestamp): (j: TrainingJob)
    ensures j.jobId == jobId && j.modelsToTrain == models
    ensures j.status == Pending && j.progress == 0.0
    ensures j.currentModel.None? && j.results == Null && j.errorMessage.None?
    ensures j.createdAt == Some(now) && j.startedAt.None? && j.completedAt.None?
  {
    TrainingJob(id, jobId, Pending, 0.0, models, None, Null, None, Some(now), None, None)
  }

  const TrainingJobKeys := ["job_id", "status", "progress", "current_model", "results",
                            "error_message", "created_at", "started_at", "completed_at"]

  /** `TrainingJob.to_dict`: everything but the row id and `models_to_train`. */
  function TrainingJobToDict(j: TrainingJob): (d: Dict<Value>)
    ensures Keys(d) == TrainingJobKeys
  {
    [("job_id", Str(j.jobId)), ("status", Str(StatusText(j.status))),
     ("progress", Num(j.progress)), ("current_model", OptText(j.currentModel)),
     ("results", j.results), ("error_message", OptText(j.errorMessage)),
     ("created_at", IsoOrNone(j.createdAt)), ("started_at", IsoOrNone(j.startedAt)),
     ("completed_at", IsoOrNone(j.completedAt))]
  }

  /** Each of the three timestamps reads back as its ISO text, or None when unset. */
  lemma TrainingJobDatesRendered(j: TrainingJob)
    ensures Get(TrainingJobToDict(j), "created_at") == Some(IsoOrNone(j.createdAt))
    ensures Get(TrainingJobToDict(j), "started_at") == Some(IsoOrNone(j.startedAt))
    ensures Get(TrainingJobToDict(j), "completed_at") == Some(IsoOrNone(j.completedAt))
  {
    var d := TrainingJobToDict(j);
    assert |d[0].0| == 6 && |d[1].0| == 6 && |d[2].0| == 8 && |d[3].0| == 13 && |d[4].0| == 7;
    assert |d[5].0| == 13 && |d[6].0| == 10 && |d[7].0| == 10 && |d[8].0| == 12;
    assert d[6].0[0] == 'c' && d[7].0[0] == 's';
    GetAt(d, 6);
    GetAt(d, 7);
    GetAt(d, 8);
  }

  /** A freshly created job reads back as pending, at progress 0, not started, not finished. */
  lemma NewTrainingJobDict(id: int, jobId: string, models: seq<string>, now: Timestamp)
    ensures var d := TrainingJobToDict(NewTrainingJob(id, jobId, models, now));
      Get(d, "status") == Some(Str("pending")) && Get(d, "progress") == Some(Num(0.0)) &&
      Get(d, "current_model") == Some(Null) && Get(d, "results") == Some(Null) &&
      Get(d, "started_at") == Some(Null) && Get(d, "completed_at") == Some(Null)
  {
    var j := NewTrainingJob(id, jobId, models, now);
    TrainingJobDatesRendered(j);
    TrainingJobFields(j);
    TrainingJobOutcome(j);
  }

  /** The status reads back as its text and the progress as its number. */
  lemma TrainingJobFields(j: TrainingJob)
    ensures Get(TrainingJobToDict(j), "status") == Some(Str(StatusText(j.status)))
    ensures Get(TrainingJobToDict(j), "progress") == Some(Num(j.progress))
  {
    var d := TrainingJobToDict(j);
    assert d[0].0[0] == 'j' && d[1].0[0] == 's' && d[2].0[0] == 'p';
    GetAt(d, 1);
    GetAt(d, 2);
  }

  /** The current model and the results read back as stored. */
  lemma TrainingJobOutcome(j: TrainingJob)
    ensures Get(TrainingJobToDict(j), "current_model") == Some(OptText(j.currentModel))
    ensures Get(TrainingJobToDict(j), "results") == Some(j.results)
  {
    var d := TrainingJobToDict(j);
    assert d[0].0[0] == 'j' && d[1].0[0] == 's' && d[2].0[0] == 'p' && d[3].0[0] == 'c' && d[4].0[0] == 'r';
    GetAt(d, 3);
    GetAt(d, 4);
  }

  // --------------------------------------------------------------- database

  /** The tables the routes share through their database session. */
  class Database {
    var customers: seq<Customer>
    var predictions: seq<Prediction>
    var metrics: seq<ModelMetric>
    var jobs: seq<TrainingJob>

    constructor()
      ensures customers == [] && predictions == [] && metrics == [] && jobs == []
    {
      customers := [];
      predictions := [];
      metrics := [];
      jobs := [];
    }
  }
}
