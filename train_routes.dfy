/**
 * The training endpoints: creating a job, the background run that moves it from
 * pending through running to completed or failed while its progress climbs, and the
 * status and job-list lookups.
 */
module TrainRoutes {
  import opened Wrappers
  import opened Values
  import opened Records
  import opened Frames
  import opened Paths
  import opened Ranking
  import DataLoading
  import FeatureEngineering
  import DataProcessing
  import Evaluation
  import Training

  // ------------------------------------------------------------ job creation

  const StartedMessage := "Training job started. Use /train/status/{job_id} to check progress."

  datatype TrainResponse = TrainResponse(jobId: string, status: string, message: string)

  /** The position of the first job with `jobId`, or `|jobs|` when there is none. */
  function FindJob(jobs: seq<TrainingJob>, jobId: string): (k: nat)
    ensures k <= |jobs|
    ensures k < |jobs| ==> jobs[k].jobId == jobId
    ensures forall i :: 0 <= i < k ==> jobs[i].jobId != jobId
  {
    if jobs == [] then 0
    else if jobs[0].jobId == jobId then 0
    else
      var k := 1 + FindJob(jobs[1..], jobId);
      assert forall i :: 1 <= i < k ==> jobs[i] == jobs[1..][i - 1];
      k
  }

  /** `job_id` is unique among the jobs. */
  predicate JobsValid(jobs: seq<TrainingJob>) {
    forall i, j :: 0 <= i < j < |jobs| ==> jobs[i].jobId != jobs[j].jobId
  }

  /** The first line of `str(e)` when a job id already stored is inserted again. */
  const DuplicateJobId := "(sqlite3.IntegrityError) UNIQUE constraint failed: training_jobs.job_id"

  /**
   * `POST /train`: stores a pending job for the three model names under a fresh id
   * (`jobId` stands for the generated uuid4) and answers with status "pending". An id
   * already in use violates the unique constraint; the handler answers 500 with the
   * exception's text and nothing is stored.
   */
  method TrainModels(db: Database, jobId: string, now: Timestamp) returns (r: Result<TrainResponse, ApiError>)
    modifies db
    ensures FindJob(old(db.jobs), jobId) < |old(db.jobs)| ==> r == Err(ApiError(500, DuplicateJobId)) && unchanged(db)
    ensures FindJob(old(db.jobs), jobId) == |old(db.jobs)| ==>
      r == Ok(TrainResponse(jobId, "pending", StartedMessage)) &&
      db.jobs == old(db.jobs) + [NewTrainingJob(|old(db.jobs)| + 1, jobId, Training.TrainedNames, now)] &&
      db.customers == old(db.customers) && db.predictions == old(db.predictions) &&
      db.metrics == old(db.metrics)
  {
    if FindJob(db.jobs, jobId) < |db.jobs| {
      return Err(ApiError(500, DuplicateJobId));
    }
    var job := NewTrainingJob(|db.jobs| + 1, jobId, Training.TrainedNames, now);
    db.jobs := db.jobs + [job];
    r := Ok(TrainResponse(jobId, StatusText(job.status), StartedMessage));
  }

  /** A new job starts pending, for the three model names, and keeps job ids unique. */
  lemma NewJobPending(jobs: seq<TrainingJob>, jobId: string, now: Timestamp)
    requires JobsValid(jobs) && FindJob(jobs, jobId) == |jobs|
    ensures var job := NewTrainingJob(|jobs| + 1, jobId, Training.TrainedNames, now);
      job.status == Pending && job.progress == 0.0 && job.modelsToTrain == Training.TrainedNames &&
      JobsValid(jobs + [job])
  {
    var job := NewTrainingJob(|jobs| + 1, jobId, Training.TrainedNames, now);
    forall i | 0 <= i < |jobs|
      ensures jobs[i].jobId != jobId
    {
    }
    assert (jobs + [job])[|jobs|] == job;
  }

  // ---------------------------------------------------------- the pipeline

  const DatasetFile := "telco_churn.csv"

  /** The sizes of the train and test parts; the split itself is library code. */
  datatype SplitSizes = SplitSizes(train: nat, test: nat)

  /**
   * What a run of the background task depends on besides the tables: the dataset
   * files, the library calls it makes (one-hot layout, split, fitting the three
   * models; the request's options are folded into these), the outcome of writing
   * the models and metadata to disk, the recorded training times, the model
   * version and the clock at the start and at the end.
   */
  datatype TaskEnv = TaskEnv(
    loader: DataLoading.DataLoader,
    files: map<Path, Frame>,
    oneHot: DataProcessing.OneHot,
    split: DataProcessing.Processed -> Result<SplitSizes, string>,
    fit: (DataProcessing.Processed, SplitSizes) -> Result<(Evaluation.Model, Evaluation.Model, Evaluation.Model), string>,
    saveError: Option<string>,
    times: Dict<real>,
    version: string,
    started: Timestamp,
    flushedAt: Timestamp,
    finished: Timestamp)

  /** The progress values and step labels written on the way, in order. */
  const Progress: seq<real> := [0.1, 0.2, 0.3, 0.4, 0.5, 0.7, 0.8, 0.9]
  const Labels := ["Loading data", "Engineering features", "Processing data", "Splitting data",
                   "Training models", "Evaluating models", "Saving models", "Saving metrics"]

  /**
   * How a run ends: `Stopped` when the work after the `reached`-th progress step
   * raises `error`, with the metric rows already added to the session, which the
   * handler's query flushes and its commit stores; `Finished` with the metrics, the best model, the number of
   * features and the metric rows to store.
   */
  datatype Run =
    | Stopped(reached: nat, error: string, flushed: seq<ModelMetric>)
    | Finished(metrics: Dict<Evaluation.Metrics>, best: string, featureCount: nat, rows: seq<ModelMetric>)

  /**
   * The engineering step as written: features are derived from the frame as loaded;
   * cleaning only happens in the next step, inside `process_pipeline`.
   */
  function EngineeredAsWritten(df: Frame): Result<Frame, string> {
    FeatureEngineering.EngineerFeatures(df)
  }

  /** The stored form of a confusion matrix (`.tolist()`). */
  function MatrixValue(cm: seq<seq<int>>): Value {
    List(seq(|cm|, i requires 0 <= i < |cm| =>
      List(seq(|cm[i]|, j requires 0 <= j < |cm[i]| => Num(cm[i][j] as real)))))
  }

  function ImportanceValue(d: Dict<real>): Value {
    Object(seq(|d|, i requires 0 <= i < |d| => (d[i].0, Num(d[i].1))))
  }

  /** `get_feature_importance` succeeds: the model does not have an empty `coef_`. */
  predicate ImportanceDefined(model: Evaluation.Model) {
    model.featureImportances.Some? || model.coef.None? || model.coef.value != []
  }

  /** One `ModelMetric(...)` of the saving loop: the model's scores, counts and top 20 importances. */
  function MetricRow(id: int, name: string, m: Evaluation.Metrics, model: Evaluation.Model,
                     names: seq<string>, sizes: SplitSizes, env: TaskEnv): (r: Result<ModelMetric, string>)
    ensures r.Ok? ==> r.value.id == id && r.value.modelName == name
    ensures r.Ok? ==> r.value.rocAuc == Some(m.rocAuc) && r.value.trainedAt == Some(env.flushedAt)
    ensures r.Err? <==> !ImportanceDefined(model)
  {
    var importance :- Evaluation.FeatureImportance(model, names, 20);
    Ok(ModelMetric(id, name, Some(env.version),
                   Some(m.accuracy), Some(m.precision), Some(m.recall), Some(m.f1Score), Some(m.rocAuc),
                   Some(m.truePositives), Some(m.trueNegatives), Some(m.falsePositives), Some(m.falseNegatives),
                   MatrixValue(model.confusion), model.report, ImportanceValue(importance),
                   Some(sizes.train), Some(sizes.test), Some(Get(env.times, name).GetOr(0.0)),
                   Some(env.flushedAt), None))
  }

  /**
   * A loop over results from position `i` on, with the values `done` so far: the
   * first error stops it, otherwise every value is appended in order.
   */
  function CollectFrom<T>(rs: seq<Result<T, string>>, i: nat, done: seq<T>): Result<seq<T>, string>
    requires i <= |rs|
    decreases |rs| - i
  {
    if i == |rs| then Ok(done)
    else
      match rs[i]
      case Err(e) => Err(e)
      case Ok(x) => CollectFrom(rs, i + 1, done + [x])
  }

  /** The loop from `i` succeeds exactly when every remaining result does. */
  lemma {:induction false} CollectFromOk<T>(rs: seq<Result<T, string>>, i: nat, done: seq<T>)
    requires i <= |rs|
    ensures CollectFrom(rs, i, done).Ok? <==> forall j :: i <= j < |rs| ==> rs[j].Ok?
    decreases |rs| - i
  {
    if i < |rs| && rs[i].Ok? {
      CollectFromOk(rs, i + 1, done + [rs[i].value]);
    }
  }

  /** A successful loop from `i` keeps `done` and appends the remaining values in order. */
  lemma {:induction false} CollectFromValues<T>(rs: seq<Result<T, string>>, i: nat, done: seq<T>)
    requires i <= |rs|
    ensures var r := CollectFrom(rs, i, done);
      r.Ok? ==> |r.value| == |done| + |rs| - i && r.value[..|done|] == done &&
                forall k :: |done| <= k < |r.value| ==> rs[k - |done| + i] == Ok(r.value[k])
    decreases |rs| - i
  {
    if i == |rs| {
      assert done[..|done|] == done;
    } else if rs[i].Ok? {
      var done' := done + [rs[i].value];
      CollectFromValues(rs, i + 1, done');
      var r := CollectFrom(rs, i + 1, done');
      if r.Ok? {
        assert done'[..|done|] == done;
        assert r.value[..|done|] == r.value[..|done'|][..|done|];
        assert r.value[|done|] == r.value[..|done'|][|done|];
      }
    }
  }

  /** The loop over all results: every value in order, or the first error. */
  lemma CollectAll<T>(rs: seq<Result<T, string>>)
    ensures var r := CollectFrom(rs, 0, []);
      (r.Ok? <==> forall j :: 0 <= j < |rs| ==> rs[j].Ok?) &&
      (r.Ok? ==> |r.value| == |rs| && forall j :: 0 <= j < |rs| ==> rs[j] == Ok(r.value[j]))
  {
    CollectFromOk(rs, 0, []);
    CollectFromValues(rs, 0, []);
    var none: seq<T> := [];
    var r := CollectFrom(rs, 0, none);
    if r.Ok? {
      forall j | 0 <= j < |rs|
        ensures rs[j] == Ok(r.value[j])
      {
        assert rs[j - |none| + 0] == Ok(r.value[j]);
      }
    }
  }

  /** The row the saving loop builds for each model, in evaluation order. */
  function RowResults(models: Dict<Evaluation.Model>, metrics: Dict<Evaluation.Metrics>, names: seq<string>,
                      sizes: SplitSizes, env: TaskEnv, baseId: int): (rs: seq<Result<ModelMetric, string>>)
    requires |models| == |metrics|
    ensures |rs| == |metrics|
    ensures forall i :: 0 <= i < |rs| ==>
      rs[i] == MetricRow(baseId + i, metrics[i].0, metrics[i].1, models[i].1, names, sizes, env)
  {
    seq(|metrics|, i requires 0 <= i < |metrics| =>
      MetricRow(baseId + i, metrics[i].0, metrics[i].1, models[i].1, names, sizes, env))
  }

  /**
   * The metric rows of all models, numbered from `baseId`: they exist exactly when
   * every model has importances, and then there is one per model, in order.
   */
  function MetricRows(models: Dict<Evaluation.Model>, metrics: Dict<Evaluation.Metrics>, names: seq<string>,
                      sizes: SplitSizes, env: TaskEnv, baseId: int): (r: Result<seq<ModelMetric>, string>)
    requires |models| == |metrics|
    ensures r.Ok? <==> forall i :: 0 <= i < |models| ==> ImportanceDefined(models[i].1)
    ensures r.Ok? ==> |r.value| == |metrics|
    ensures r.Ok? ==> forall i :: 0 <= i < |metrics| ==> r.value[i].modelName == metrics[i].0 && r.value[i].id == baseId + i
  {
    CollectedRows(models, metrics, names, sizes, env, baseId);
    CollectFrom(RowResults(models, metrics, names, sizes, env, baseId), 0, [])
  }

  /** The saving loop over every model, in terms of the models and their rows. */
  lemma CollectedRows(models: Dict<Evaluation.Model>, metrics: Dict<Evaluation.Metrics>, names: seq<string>,
                      sizes: SplitSizes, env: TaskEnv, baseId: int)
    requires |models| == |metrics|
    ensures var r := CollectFrom(RowResults(models, metrics, names, sizes, env, baseId), 0, []);
      (r.Ok? <==> forall i :: 0 <= i < |models| ==> ImportanceDefined(models[i].1)) &&
      (r.Ok? ==> |r.value| == |metrics| &&
                 forall i :: 0 <= i < |metrics| ==> r.value[i].modelName == metrics[i].0 && r.value[i].id == baseId + i)
  {
    var rs := RowResults(models, metrics, names, sizes, env, baseId);
    CollectAll(rs);
    forall i | 0 <= i < |models|
      ensures rs[i].Ok? <==> ImportanceDefined(models[i].1)
    {
    }
    var r := CollectFrom(rs, 0, []);
    if r.Ok? {
      forall i | 0 <= i < |metrics|
        ensures r.value[i].modelName == metrics[i].0 && r.value[i].id == baseId + i
      {
        assert rs[i] == Ok(r.value[i]);
      }
    }
  }

  /**
   * The values of the results before the first error: what a loop that adds each
   * value as it goes has added when the first error raises, or all of them.
   */
  function OkPrefix<T>(rs: seq<Result<T, string>>): (r: seq<T>)
    ensures |r| <= |rs|
    ensures forall i :: 0 <= i < |r| ==> rs[i] == Ok(r[i])
    ensures |r| < |rs| ==> rs[|r|].Err?
  {
    if rs == [] || rs[0].Err? then [] else [rs[0].value] + OkPrefix(rs[1..])
  }

  /** A run of successes extended by the next success. */
  lemma OkSnoc<T>(rs: seq<Result<T, string>>, vs: seq<T>, v: T)
    requires |vs| < |rs| && rs[|vs|] == Ok(v)
    requires forall j :: 0 <= j < |vs| ==> rs[j] == Ok(vs[j])
    ensures forall j :: 0 <= j < |vs| + 1 ==> rs[j] == Ok((vs + [v])[j])
  {
  }

  /** The contract of `OkPrefix` determines it: values matching the results up to the first error are the prefix. */
  lemma {:induction false} OkPrefixUnique<T>(rs: seq<Result<T, string>>, vs: seq<T>)
    requires |vs| <= |rs|
    requires forall i :: 0 <= i < |vs| ==> rs[i] == Ok(vs[i])
    requires |vs| < |rs| ==> rs[|vs|].Err?
    ensures OkPrefix(rs) == vs
  {
    if vs != [] {
      assert rs[0] == Ok(vs[0]);
      OkPrefixUnique(rs[1..], vs[1..]);
      assert vs == [vs[0]] + vs[1..];
    }
  }

  /** The rows the saving loop has `db.add`ed when it stops: those of the models before the first failing one. */
  function AddedRows(models: Dict<Evaluation.Model>, metrics: Dict<Evaluation.Metrics>, names: seq<string>,
                     sizes: SplitSizes, env: TaskEnv, baseId: int): (r: seq<ModelMetric>)
    requires |models| == |metrics|
    ensures |r| <= |metrics|
  {
    OkPrefix(RowResults(models, metrics, names, sizes, env, baseId))
  }

  /**
   * When a metric row cannot be built, the rows added before it are those of the
   * models before the first one without importances, in order, numbered from
   * `baseId`; when every row is built, the added rows are all of them.
   */
  lemma AddedBeforeFailure(models: Dict<Evaluation.Model>, metrics: Dict<Evaluation.Metrics>, names: seq<string>,
                           sizes: SplitSizes, env: TaskEnv, baseId: int)
    requires |models| == |metrics|
    ensures var rows := MetricRows(models, metrics, names, sizes, env, baseId);
      var added := AddedRows(models, metrics, names, sizes, env, baseId);
      (rows.Ok? ==> added == rows.value) &&
      (rows.Err? ==> |added| < |metrics| && !ImportanceDefined(models[|added|].1)) &&
      (forall i :: 0 <= i < |added| ==>
         ImportanceDefined(models[i].1) && added[i].modelName == metrics[i].0 && added[i].id == baseId + i)
  {
    var rs := RowResults(models, metrics, names, sizes, env, baseId);
    var rows := MetricRows(models, metrics, names, sizes, env, baseId);
    CollectAll(rs);
    if rows.Ok? {
      OkPrefixUnique(rs, rows.value);
    }
  }

  function MetricsValue(m: Evaluation.Metrics): Value {
    Object([("accuracy", Num(m.accuracy)), ("precision", Num(m.precision)), ("recall", Num(m.recall)),
            ("f1_score", Num(m.f1Score)), ("roc_auc", Num(m.rocAuc)),
            ("true_positives", Num(m.truePositives as real)), ("true_negatives", Num(m.trueNegatives as real)),
            ("false_positives", Num(m.falsePositives as real)), ("false_negatives", Num(m.falseNegatives as real))])
  }

  /** The `results` column of a completed job. */
  function ResultsValue(metrics: Dict<Evaluation.Metrics>, best: string, featureCount: nat): Value {
    Object([("metrics", Object(seq(|metrics|, i requires 0 <= i < |metrics| => (metrics[i].0, MetricsValue(metrics[i].1))))),
            ("best_model", Str(best)),
            ("feature_count", Num(featureCount as real))])
  }

  /** Three distinct names make a comparison with a best model by ROC-AUC. */
  lemma BestOfThree(metrics: Dict<Evaluation.Metrics>)
    requires |metrics| == 3
    ensures Evaluation.BestModel(metrics, "roc_auc").Ok?
  {
    assert Evaluation.MetricNames[4] == "roc_auc";
  }

  /**
   * What a finished run holds: the metrics of the three models under their names, the
   * evaluator's best model by ROC-AUC, and one metric row per model, in training
   * order, numbered on from `baseId`.
   */
  ghost predicate FinishedShape(r: Run, baseId: int) {
    r.Finished? ==>
      Keys(r.metrics) == Training.TrainedNames &&
      Evaluation.BestModel(r.metrics, "roc_auc").Ok? &&
      r.best == Evaluation.BestModel(r.metrics, "roc_auc").value.0 &&
      |r.rows| == 3 &&
      forall i :: 0 <= i < 3 ==> r.rows[i].modelName == Training.TrainedNames[i] && r.rows[i].id == baseId + i
  }

  /**
   * The work of one run, step by step: load, engineer, process, split, fit,
   * evaluate, save, then build the metric rows and pick the best model by ROC-AUC.
   */
  function Pipeline(env: TaskEnv, baseId: int): (r: Run)
    ensures r.Stopped? ==> 1 <= r.reached <= |Progress|
    ensures r.Stopped? && r.flushed != [] ==> r.reached == |Progress|
  {
    match DataLoading.LoadTelcoChurn(env.loader, DatasetFile, env.files)
    case Err(e) => Stopped(1, DataLoading.ErrorText(e), [])
    case Ok(df) => FromLoaded(df, env, baseId)
  }

  /** The run once the dataset is loaded: engineering runs on the frame as loaded. */
  function FromLoaded(df: Frame, env: TaskEnv, baseId: int): (r: Run)
    ensures r.Stopped? ==> 1 <= r.reached <= |Progress|
    ensures r.Stopped? && r.flushed != [] ==> r.reached == |Progress|
  {
    FromEngineered(EngineeredAsWritten(df), env, baseId)
  }

  /**
   * The run once engineering has run, or the error it raised: `process_pipeline`
   * (clean, encode, split off the target) comes next and may raise in turn.
   */
  function FromEngineered(engineered: Result<Frame, string>, env: TaskEnv, baseId: int): (r: Run)
    ensures r.Stopped? ==> 1 <= r.reached <= |Progress|
    ensures r.Stopped? && r.flushed != [] ==> r.reached == |Progress|
    ensures engineered.Err? ==> r == Stopped(2, engineered.error, [])
    ensures engineered.Ok? && DataProcessing.Pipeline(engineered.value, "Churn", env.oneHot).Err? ==>
      r == Stopped(3, DataProcessing.Pipeline(engineered.value, "Churn", env.oneHot).error, [])
  {
    match engineered
    case Err(e) => Stopped(2, e, [])
    case Ok(f) =>
      match DataProcessing.Pipeline(f, "Churn", env.oneHot)
      case Err(e) => Stopped(3, e, [])
      case Ok(p) => FromFeatures(p, env, baseId)
  }

  /** The run once the features are ready: split, then fit the three models. */
  function FromFeatures(p: DataProcessing.Processed, env: TaskEnv, baseId: int): (r: Run)
    ensures r.Stopped? ==> 1 <= r.reached <= |Progress|
    ensures r.Stopped? && r.flushed != [] ==> r.reached == |Progress|
  {
    match env.split(p)
    case Err(e) => Stopped(4, e, [])
    case Ok(sizes) =>
      match env.fit(p, sizes)
      case Err(e) => Stopped(5, e, [])
      case Ok(fitted) => FromModels(p, sizes, Training.Trained(fitted.0, fitted.1, fitted.2), env, baseId)
  }

  /** The run once the models are trained: evaluate, then save. */
  function FromModels(p: DataProcessing.Processed, sizes: SplitSizes, models: Dict<Evaluation.Model>,
                      env: TaskEnv, baseId: int): (r: Run)
    requires Keys(models) == Training.TrainedNames
    ensures r.Stopped? ==> 1 <= r.reached <= |Progress|
    ensures r.Stopped? && r.flushed != [] ==> r.reached == |Progress|
  {
    match Evaluation.AllMetrics(models)
    case Err(e) => Stopped(6, e, [])
    case Ok(metrics) => FromMetrics(p, sizes, models, metrics, env, baseId)
  }

  /** The run once the models are evaluated: save the models, then build the metric rows. */
  function FromMetrics(p: DataProcessing.Processed, sizes: SplitSizes, models: Dict<Evaluation.Model>,
                       metrics: Dict<Evaluation.Metrics>, env: TaskEnv, baseId: int): (r: Run)
    requires Keys(metrics) == Keys(models) == Training.TrainedNames
    ensures r.Stopped? ==> 1 <= r.reached <= |Progress|
    ensures r.Stopped? && r.flushed != [] ==> r.reached == |Progress|
    ensures r.Stopped? && r.reached == |Progress| ==> r.flushed == AddedRows(models, metrics, p.featureNames, sizes, env, baseId)
  {
    if env.saveError.Some? then Stopped(7, env.saveError.value, [])
    else FromRows(metrics, |p.featureNames|, MetricRows(models, metrics, p.featureNames, sizes, env, baseId),
                  AddedRows(models, metrics, p.featureNames, sizes, env, baseId))
  }

  /**
   * The end of the run: a failed row stops it, keeping the rows `added` before it;
   * otherwise it finishes with every row and the best model by ROC-AUC.
   */
  function FromRows(metrics: Dict<Evaluation.Metrics>, featureCount: nat, rows: Result<seq<ModelMetric>, string>,
                    added: seq<ModelMetric>): (r: Run)
    requires Keys(metrics) == Training.TrainedNames
    ensures r.Stopped? <==> rows.Err?
    ensures r.Stopped? ==> r.reached == |Progress| && r.error == rows.error && r.flushed == added
    ensures r.Finished? ==> r.rows == rows.value && r.featureCount == featureCount && r.metrics == metrics
    ensures r.Finished? ==> Evaluation.BestModel(metrics, "roc_auc").Ok? && r.best == Evaluation.BestModel(metrics, "roc_auc").value.0
  {
    match rows
    case Err(e) => Stopped(8, e, added)
    case Ok(rows) =>
      BestOfThree(metrics);
      Finished(metrics, Evaluation.BestModel(metrics, "roc_auc").value.0, featureCount, rows)
  }

  /** The stored job right after the `k`-th progress commit (counting from 0). */
  function AtStage(j: TrainingJob, k: nat, started: Timestamp): TrainingJob
    requires k < |Progress|
  {
    j.(status := Running, startedAt := Some(started), progress := Progress[k], currentModel := Some(Labels[k]))
  }

  function Snapshots(j: TrainingJob, n: nat, started: Timestamp): (s: seq<TrainingJob>)
    requires n <= |Progress|
    ensures |s| == n && forall i :: 0 <= i < n ==> s[i] == AtStage(j, i, started)
  {
    seq(n, i requires 0 <= i < n => AtStage(j, i, started))
  }

  /** The exception handler: failed, with the message and the finishing time. */
  function Failure(j: TrainingJob, error: string, now: Timestamp): TrainingJob {
    j.(status := Failed, errorMessage := Some(error), completedAt := Some(now))
  }

  /** The end of a successful run. */
  function Completion(j: TrainingJob, results: Value, now: Timestamp): TrainingJob {
    j.(status := Completed, progress := 1.0, completedAt := Some(now), results := results)
  }

  /** The number of progress commits a run makes before its last commit. */
  function StepsOf(run: Run): nat {
    if run.Stopped? then run.reached else |Progress|
  }

  /** The job as last committed: failed by the handler, or completed with the run's results. */
  function Final(j: TrainingJob, run: Run, env: TaskEnv): TrainingJob
    requires run.Stopped? ==> 1 <= run.reached <= |Progress|
  {
    match run
    case Stopped(reached, e, _) => Failure(AtStage(j, reached - 1, env.started), e, env.finished)
    case Finished(metrics, best, count, _) =>
      Completion(AtStage(j, |Progress| - 1, env.started), ResultsValue(metrics, best, count), env.finished)
  }

  /** The job as committed at each `db.commit()` of a run that starts from `j`. */
  function Commits(j: TrainingJob, run: Run, env: TaskEnv): (c: seq<TrainingJob>)
    requires run.Stopped? ==> 1 <= run.reached <= |Progress|
  {
    Snapshots(j, StepsOf(run), env.started) + [Final(j, run, env)]
  }

  /** The metric rows a run stores: all of a finished run's, the flushed ones of a stopped run. */
  function StoredRows(run: Run): seq<ModelMetric> {
    if run.Finished? then run.rows else run.flushed
  }

  // ------------------------------------------------------- what runs promise

  /**
   * Every commit but the last shows the job running, with its start time; the last
   * shows it completed exactly when the run finished and failed exactly when it
   * stopped, with its finishing time. The job's identity is never touched.
   */
  lemma CommitsLifecycle(j: TrainingJob, run: Run, env: TaskEnv)
    requires run.Stopped? ==> 1 <= run.reached <= |Progress|
    ensures var c := Commits(j, run, env);
      |c| >= 2 &&
      (forall i :: 0 <= i < |c| - 1 ==> c[i].status == Running && c[i].startedAt == Some(env.started)) &&
      (c[|c| - 1].status == Completed <==> run.Finished?) &&
      (c[|c| - 1].status == Failed <==> run.Stopped?) &&
      c[|c| - 1].completedAt == Some(env.finished) &&
      (forall i :: 0 <= i < |c| ==>
         c[i].jobId == j.jobId && c[i].createdAt == j.createdAt &&
         c[i].modelsToTrain == j.modelsToTrain)
  {
  }

  /**
   * Progress strictly increases over the running commits. A finished run ends at 1.0,
   * above all of them; a stopped run records its error and keeps the progress of the
   * last step it reached.
   */
  lemma {:induction false} CommitsProgress(j: TrainingJob, run: Run, env: TaskEnv)
    requires run.Stopped? ==> 1 <= run.reached <= |Progress|
    ensures var c := Commits(j, run, env);
      (forall a, b :: 0 <= a < b < |c| - 1 ==> c[a].progress < c[b].progress) &&
      (run.Finished? ==> |c| == 9 && c[8].progress == 1.0 && forall a :: 0 <= a < 8 ==> c[a].progress < 1.0) &&
      (run.Stopped? ==> c[|c| - 1].progress == c[|c| - 2].progress == Progress[run.reached - 1] &&
                        c[|c| - 1].errorMessage == Some(run.error))
  {
    var c := Commits(j, run, env);
    forall a, b | 0 <= a < b < |c| - 1
      ensures c[a].progress < c[b].progress
    {
      assert c[a] == AtStage(j, a, env.started) && c[b] == AtStage(j, b, env.started);
      ProgressIncreasing(a, b);
    }
    if run.Finished? {
      forall a | 0 <= a < 8
        ensures c[a].progress < 1.0
      {
        assert c[a] == AtStage(j, a, env.started);
      }
    }
  }

  lemma ProgressIncreasing(a: nat, b: nat)
    requires a < b < |Progress|
    ensures Progress[a] < Progress[b]
  {
  }

  /**
   * A completed job's results name the run's best model and its number of features,
   * and list the metrics of every model under its name.
   */
  lemma CompletedResults(j: TrainingJob, run: Run, env: TaskEnv)
    requires run.Finished?
    ensures var r := Final(j, run, env).results;
      r.Object? &&
      Get(r.fields, "best_model") == Some(Str(run.best)) &&
      Get(r.fields, "feature_count") == Some(Num(run.featureCount as real)) &&
      Get(r.fields, "metrics").Some? && Get(r.fields, "metrics").value.Object? &&
      Keys(Get(r.fields, "metrics").value.fields) == Keys(run.metrics)
  {
    var fields := ResultsValue(run.metrics, run.best, run.featureCount).fields;
    assert fields[0].0 == "metrics" && fields[1].0 == "best_model" && fields[2].0 == "feature_count";
    assert "metrics"[0] != "best_model"[0] && "metrics"[0] != "feature_count"[0];
    assert "best_model"[0] != "feature_count"[0];
    KeyIndexUnique(fields, "metrics", 0);
    KeyIndexUnique(fields, "best_model", 1);
    KeyIndexUnique(fields, "feature_count", 2);
  }

  /** Every finished run has the shape above, whichever step it is followed from. */
  lemma PipelineFinished(env: TaskEnv, baseId: int)
    ensures FinishedShape(Pipeline(env, baseId), baseId)
  {
    match DataLoading.LoadTelcoChurn(env.loader, DatasetFile, env.files)
    case Err(_) =>
    case Ok(df) => LoadedFinished(df, env, baseId);
  }

  lemma LoadedFinished(df: Frame, env: TaskEnv, baseId: int)
    ensures FinishedShape(FromLoaded(df, env, baseId), baseId)
  {
    match EngineeredAsWritten(df)
    case Err(_) =>
    case Ok(engineered) =>
      match DataProcessing.Pipeline(engineered, "Churn", env.oneHot)
      case Err(_) =>
      case Ok(p) => FeaturesFinished(p, env, baseId);
  }

  lemma FeaturesFinished(p: DataProcessing.Processed, env: TaskEnv, baseId: int)
    ensures FinishedShape(FromFeatures(p, env, baseId), baseId)
  {
    match env.split(p)
    case Err(_) =>
    case Ok(sizes) =>
      match env.fit(p, sizes)
      case Err(_) =>
      case Ok(fitted) =>
        var models := Training.Trained(fitted.0, fitted.1, fitted.2);
        match Evaluation.AllMetrics(models)
        case Err(_) =>
        case Ok(metrics) => MetricsFinished(p, sizes, models, metrics, env, baseId);
  }

  lemma MetricsFinished(p: DataProcessing.Processed, sizes: SplitSizes, models: Dict<Evaluation.Model>,
                        metrics: Dict<Evaluation.Metrics>, env: TaskEnv, baseId: int)
    requires Keys(metrics) == Keys(models) == Training.TrainedNames
    ensures FinishedShape(FromMetrics(p, sizes, models, metrics, env, baseId), baseId)
  {
    var r := FromMetrics(p, sizes, models, metrics, env, baseId);
    if r.Finished? {
      BestOfThree(metrics);
      forall i | 0 <= i < 3
        ensures r.rows[i].modelName == Training.TrainedNames[i]
      {
        assert Keys(metrics)[i] == metrics[i].0;
      }
    }
  }

  // ---------------------------------------------------------- the background task

  /**
   * `train_models_task`: finds the job, then for each step sets its progress and
   * label and commits, doing the step's work in between; any exception marks the job
   * failed. `commits` lists the job as committed each time. An unknown id changes nothing.
   */
  method TrainModelsTask(db: Database, jobId: string, env: TaskEnv) returns (commits: seq<TrainingJob>)
    modifies db
    ensures FindJob(old(db.jobs), jobId) == |old(db.jobs)| ==> commits == [] && unchanged(db)
    ensures var k := FindJob(old(db.jobs), jobId);
      k < |old(db.jobs)| ==>
        var run := Pipeline(env, |old(db.metrics)| + 1);
        commits == Commits(old(db.jobs)[k], run, env) &&
        db.jobs == old(db.jobs)[k := Final(old(db.jobs)[k], run, env)] &&
        db.metrics == old(db.metrics) + StoredRows(run) &&
        db.customers == old(db.customers) && db.predictions == old(db.predictions)
  {
    var k := FindJob(db.jobs, jobId);
    if k == |db.jobs| {
      return [];
    }
    ghost var jobs0, metrics0 := db.jobs, db.metrics;
    var j0 := db.jobs[k];
    var baseId := |db.metrics| + 1;
    db.jobs := db.jobs[k := db.jobs[k].(status := Running, startedAt := Some(env.started),
                                        currentModel := Some(Labels[0]), progress := Progress[0])];
    commits := [db.jobs[k]];
    assert commits == Snapshots(j0, 1, env.started);
    var loaded := DataLoading.LoadTelcoChurn(env.loader, DatasetFile, env.files);
    if loaded.Err? {
      assert Pipeline(env, baseId) == Stopped(1, DataLoading.ErrorText(loaded.error), []);
      commits := Fail(db, k, 1, DataLoading.ErrorText(loaded.error), env, commits, j0, jobs0, metrics0);
      return;
    }
    var engineered := EngineeredAsWritten(loaded.value);
    assert Pipeline(env, baseId) == FromEngineered(engineered, env, baseId);
    commits := RunLoaded(db, k, engineered, env, baseId, commits, j0, jobs0, metrics0);
  }

  /**
   * The task from the loaded frame on: the engineering step's commit, then its
   * outcome (`engineered`, computed by the caller since it changes no state), then
   * the processing step's commit and a fresh processor's `process_pipeline`.
   */
  method RunLoaded(db: Database, k: nat, engineered: Result<Frame, string>, env: TaskEnv, baseId: int, commits: seq<TrainingJob>,
                   ghost j0: TrainingJob, ghost jobs0: seq<TrainingJob>, ghost metrics0: seq<ModelMetric>)
    returns (commits': seq<TrainingJob>)
    requires k < |jobs0| && baseId == |metrics0| + 1
    requires commits == Snapshots(j0, 1, env.started)
    requires db.jobs == jobs0[k := AtStage(j0, 0, env.started)] && db.metrics == metrics0
    modifies db
    ensures var run := FromEngineered(engineered, env, baseId);
      commits' == Commits(j0, run, env) && db.jobs == jobs0[k := Final(j0, run, env)] &&
      db.metrics == metrics0 + StoredRows(run) &&
      db.customers == old(db.customers) && db.predictions == old(db.predictions)
  {
    commits' := Step(db, k, 1, commits, j0, jobs0, env.started);
    if engineered.Err? {
      commits' := Fail(db, k, 2, engineered.error, env, commits', j0, jobs0, metrics0);
      return;
    }
    commits' := Step(db, k, 2, commits', j0, jobs0, env.started);
    var processor := new DataProcessing.DataProcessor();
    var p := processor.ProcessPipeline(engineered.value, "Churn", env.oneHot);
    if p.Err? {
      commits' := Fail(db, k, 3, p.error, env, commits', j0, jobs0, metrics0);
      return;
    }
    commits' := RunFeatured(db, k, p.value, env, baseId, commits', j0, jobs0, metrics0);
  }

  /** The task once the features are ready: split, then fit the three models. */
  method RunFeatured(db: Database, k: nat, p: DataProcessing.Processed, env: TaskEnv, baseId: int,
                     commits: seq<TrainingJob>,
                     ghost j0: TrainingJob, ghost jobs0: seq<TrainingJob>, ghost metrics0: seq<ModelMetric>)
    returns (commits': seq<TrainingJob>)
    requires k < |jobs0| && baseId == |metrics0| + 1
    requires commits == Snapshots(j0, 3, env.started)
    requires db.jobs == jobs0[k := AtStage(j0, 2, env.started)] && db.metrics == metrics0
    modifies db
    ensures var run := FromFeatures(p, env, baseId);
      commits' == Commits(j0, run, env) && db.jobs == jobs0[k := Final(j0, run, env)] &&
      db.metrics == metrics0 + StoredRows(run) &&
      db.customers == old(db.customers) && db.predictions == old(db.predictions)
  {
    commits' := Step(db, k, 3, commits, j0, jobs0, env.started);
    var sizes := env.split(p);
    if sizes.Err? {
      commits' := Fail(db, k, 4, sizes.error, env, commits', j0, jobs0, metrics0);
      return;
    }
    commits' := Step(db, k, 4, commits', j0, jobs0, env.started);
    var fitted := env.fit(p, sizes.value);
    if fitted.Err? {
      commits' := Fail(db, k, 5, fitted.error, env, commits', j0, jobs0, metrics0);
      return;
    }
    var models := Training.Trained(fitted.value.0, fitted.value.1, fitted.value.2);
    commits' := RunTrained(db, k, p, sizes.value, models, env, baseId, commits', j0, jobs0, metrics0);
  }

  /** The task once the models are trained: evaluate, then save. */
  method RunTrained(db: Database, k: nat, p: DataProcessing.Processed, sizes: SplitSizes,
                    models: Dict<Evaluation.Model>, env: TaskEnv, baseId: int, commits: seq<TrainingJob>,
                    ghost j0: TrainingJob, ghost jobs0: seq<TrainingJob>, ghost metrics0: seq<ModelMetric>)
    returns (commits': seq<TrainingJob>)
    requires Keys(models) == Training.TrainedNames
    requires k < |jobs0| && baseId == |metrics0| + 1
    requires commits == Snapshots(j0, 5, env.started)
    requires db.jobs == jobs0[k := AtStage(j0, 4, env.started)] && db.metrics == metrics0
    modifies db
    ensures var run := FromModels(p, sizes, models, env, baseId);
      commits' == Commits(j0, run, env) && db.jobs == jobs0[k := Final(j0, run, env)] &&
      db.metrics == metrics0 + StoredRows(run) &&
      db.customers == old(db.customers) && db.predictions == old(db.predictions)
  {
    commits' := Step(db, k, 5, commits, j0, jobs0, env.started);
    var evaluated := Evaluation.AllMetrics(models);
    if evaluated.Err? {
      assert FromModels(p, sizes, models, env, baseId) == Stopped(6, evaluated.error, []);
      commits' := Fail(db, k, 6, evaluated.error, env, commits', j0, jobs0, metrics0);
      return;
    }
    assert FromModels(p, sizes, models, env, baseId) == FromMetrics(p, sizes, models, evaluated.value, env, baseId);
    commits' := RunEvaluated(db, k, p, sizes, models, evaluated.value, env, baseId, commits', j0, jobs0, metrics0);
  }

  /** The task once the models are evaluated: save the models, then build and store the metric rows. */
  method RunEvaluated(db: Database, k: nat, p: DataProcessing.Processed, sizes: SplitSizes,
                      models: Dict<Evaluation.Model>, metrics: Dict<Evaluation.Metrics>, env: TaskEnv,
                      baseId: int, commits: seq<TrainingJob>,
                      ghost j0: TrainingJob, ghost jobs0: seq<TrainingJob>, ghost metrics0: seq<ModelMetric>)
    returns (commits': seq<TrainingJob>)
    requires Keys(metrics) == Keys(models) == Training.TrainedNames
    requires k < |jobs0| && baseId == |metrics0| + 1
    requires commits == Snapshots(j0, 6, env.started)
    requires db.jobs == jobs0[k := AtStage(j0, 5, env.started)] && db.metrics == metrics0
    modifies db
    ensures var run := FromMetrics(p, sizes, models, metrics, env, baseId);
      commits' == Commits(j0, run, env) && db.jobs == jobs0[k := Final(j0, run, env)] &&
      db.metrics == metrics0 + StoredRows(run) &&
      db.customers == old(db.customers) && db.predictions == old(db.predictions)
  {
    commits' := Step(db, k, 6, commits, j0, jobs0, env.started);
    if env.saveError.Some? {
      commits' := Fail(db, k, 7, env.saveError.value, env, commits', j0, jobs0, metrics0);
      return;
    }
    commits' := Step(db, k, 7, commits', j0, jobs0, env.started);
    var rows, added := BuildMetricRows(models, metrics, p.featureNames, sizes, env, baseId);
    commits' := StoreRows(db, k, metrics, |p.featureNames|, rows, added, env, commits', j0, jobs0, metrics0);
  }

  /**
   * Store the metric rows and complete the job with its results, or, when a row
   * failed, fail the job and store the rows `added` before it (the handler's query
   * flushes them and its commit keeps them).
   */
  method StoreRows(db: Database, k: nat, metrics: Dict<Evaluation.Metrics>, featureCount: nat,
                   rows: Result<seq<ModelMetric>, string>, added: seq<ModelMetric>, env: TaskEnv, commits: seq<TrainingJob>,
                   ghost j0: TrainingJob, ghost jobs0: seq<TrainingJob>, ghost metrics0: seq<ModelMetric>)
    returns (commits': seq<TrainingJob>)
    requires Keys(metrics) == Training.TrainedNames
    requires k < |jobs0|
    requires commits == Snapshots(j0, 8, env.started)
    requires db.jobs == jobs0[k := AtStage(j0, 7, env.started)] && db.metrics == metrics0
    modifies db
    ensures var run := FromRows(metrics, featureCount, rows, added);
      commits' == Commits(j0, run, env) && db.jobs == jobs0[k := Final(j0, run, env)] &&
      db.metrics == metrics0 + StoredRows(run) &&
      db.customers == old(db.customers) && db.predictions == old(db.predictions)
  {
    if rows.Err? {
      db.metrics := db.metrics + added;
      commits' := Fail(db, k, 8, rows.error, env, commits, j0, jobs0, metrics0 + added);
      assert Final(j0, Stopped(8, rows.error, []), env) == Final(j0, Stopped(8, rows.error, added), env);
      return;
    }
    db.metrics := db.metrics + rows.value;
    BestOfThree(metrics);
    var best := Evaluation.BestModel(metrics, "roc_auc").value.0;
    var results := ResultsValue(metrics, best, featureCount);
    db.jobs := db.jobs[k := db.jobs[k].(status := Completed, progress := 1.0, completedAt := Some(env.finished),
                                        results := results)];
    assert db.jobs == jobs0[k := Completion(AtStage(j0, 7, env.started), results, env.finished)];
    commits' := commits + [db.jobs[k]];
  }

  /** One progress step: set progress and label, then commit. */
  method Step(db: Database, k: nat, s: nat, commits: seq<TrainingJob>,
              ghost j0: TrainingJob, ghost jobs0: seq<TrainingJob>, ghost started: Timestamp)
    returns (commits': seq<TrainingJob>)
    requires 1 <= s < |Progress| && k < |jobs0|
    requires commits == Snapshots(j0, s, started) && db.jobs == jobs0[k := AtStage(j0, s - 1, started)]
    modifies db
    ensures commits' == Snapshots(j0, s + 1, started) && db.jobs == jobs0[k := AtStage(j0, s, started)]
    ensures db.metrics == old(db.metrics) && db.customers == old(db.customers) && db.predictions == old(db.predictions)
  {
    db.jobs := db.jobs[k := db.jobs[k].(progress := Progress[s], currentModel := Some(Labels[s]))];
    assert db.jobs == jobs0[k := AtStage(j0, s, started)];
    commits' := commits + [db.jobs[k]];
  }

  /** The exception handler after `s` progress commits: mark the job failed and commit. */
  method Fail(db: Database, k: nat, s: nat, error: string, env: TaskEnv, commits: seq<TrainingJob>,
              ghost j0: TrainingJob, ghost jobs0: seq<TrainingJob>, ghost metrics0: seq<ModelMetric>)
    returns (commits': seq<TrainingJob>)
    requires 1 <= s <= |Progress| && k < |jobs0|
    requires commits == Snapshots(j0, s, env.started)
    requires db.jobs == jobs0[k := AtStage(j0, s - 1, env.started)] && db.metrics == metrics0
    modifies db
    ensures var run := Stopped(s, error, []);
      commits' == Commits(j0, run, env) && db.jobs == jobs0[k := Final(j0, run, env)] &&
      db.metrics == metrics0 + StoredRows(run) &&
      db.customers == old(db.customers) && db.predictions == old(db.predictions)
  {
    db.jobs := db.jobs[k := db.jobs[k].(status := Failed, errorMessage := Some(error), completedAt := Some(env.finished))];
    assert db.jobs == jobs0[k := Final(j0, Stopped(s, error, []), env)];
    commits' := commits + [db.jobs[k]];
    assert db.metrics == metrics0 + [];
  }

  /**
   * The saving loop: one metric row per evaluated model, numbered on from `baseId`,
   * each added as it is built; the first row that cannot be built ends the loop
   * with its error. `added` is what was added either way.
   */
  method BuildMetricRows(models: Dict<Evaluation.Model>, metrics: Dict<Evaluation.Metrics>, names: seq<string>,
                         sizes: SplitSizes, env: TaskEnv, baseId: int)
    returns (r: Result<seq<ModelMetric>, string>, added: seq<ModelMetric>)
    requires |models| == |metrics|
    ensures r == MetricRows(models, metrics, names, sizes, env, baseId)
    ensures added == AddedRows(models, metrics, names, sizes, env, baseId)
  {
    ghost var rs := RowResults(models, metrics, names, sizes, env, baseId);
    added := [];
    for i := 0 to |metrics|
      invariant CollectFrom(rs, i, added) == MetricRows(models, metrics, names, sizes, env, baseId)
      invariant |added| == i && forall j :: 0 <= j < i ==> rs[j] == Ok(added[j])
    {
      var row := MetricRow(baseId + i, metrics[i].0, metrics[i].1, models[i].1, names, sizes, env);
      assert rs[i] == row;
      if row.Err? {
        OkPrefixUnique(rs, added);
        return Err(row.error), added;
      }
      OkSnoc(rs, added, row.value);
      added := added + [row.value];
    }
    OkPrefixUnique(rs, added);
    return Ok(added), added;
  }

  // ------------------------------------------------------------ the lookups

  const JobNotFound := ApiError(404, "Training job not found")

  /** `GET /train/status/{job_id}`: the first job with that id, or 404. */
  function TrainingStatus(jobs: seq<TrainingJob>, jobId: string): (r: Result<Dict<Value>, ApiError>)
    ensures r.Err? <==> forall i :: 0 <= i < |jobs| ==> jobs[i].jobId != jobId
    ensures r.Err? ==> r.error == JobNotFound
    ensures r.Ok? ==> exists i :: 0 <= i < |jobs| && jobs[i].jobId == jobId && r.value == TrainingJobToDict(jobs[i])
  {
    var k := FindJob(jobs, jobId);
    if k == |jobs| then Err(JobNotFound) else Ok(TrainingJobToDict(jobs[k]))
  }

  function CreatedKey(j: TrainingJob): real { TimeKey(j.createdAt) }

  datatype JobList = JobList(jobs: seq<Dict<Value>>, count: nat)

  /** `GET /train/jobs`: newest first, at most `limit` of them, with their count. */
  function TrainingJobs(jobs: seq<TrainingJob>, limit: int): (r: JobList)
    ensures r.count == |r.jobs|
    ensures limit >= 0 ==> r.count <= limit
    ensures r.count == if limit >= 0 then Min(limit, |jobs|) else |jobs|
  {
    var listed := SqlLimit(SortDesc(jobs, CreatedKey), limit);
    JobList(seq(|listed|, i requires 0 <= i < |listed| => TrainingJobToDict(listed[i])), |listed|)
  }

  /**
   * The listed jobs are the newest ones: in descending creation order, each from the
   * table, and none left out is newer than one listed.
   */
  lemma TrainingJobsNewestFirst(jobs: seq<TrainingJob>, limit: int)
    ensures var listed := SqlLimit(SortDesc(jobs, CreatedKey), limit);
      SortedDesc(listed, CreatedKey) &&
      (forall i :: 0 <= i < |listed| ==> listed[i] in jobs) &&
      (forall j :: j in jobs && j !in listed ==>
         forall i :: 0 <= i < |listed| ==> CreatedKey(j) <= CreatedKey(listed[i])) &&
      TrainingJobs(jobs, limit).jobs == seq(|listed|, i requires 0 <= i < |listed| => TrainingJobToDict(listed[i]))
  {
    SortedPrefix(jobs, CreatedKey, |SqlLimit(SortDesc(jobs, CreatedKey), limit)|);
  }

  // ----------------------------------------------- the order of the pipeline

  /** A raw row as the Telco file has it for new customers: tenure 0, TotalCharges blank. */
  const BlankChargesRow: Row := map["tenure" := Num(0.0), "MonthlyCharges" := Num(20.0), "TotalCharges" := Str(" ")]
  const BlankChargesFrame := Frame(["tenure", "MonthlyCharges", "TotalCharges"], [BlankChargesRow])

  /**
   * As written, a blank TotalCharges makes feature engineering raise, so the run
   * stops after its second progress step and the job fails.
   */
  lemma BlankTotalChargesStopsTraining(env: TaskEnv, baseId: int)
    ensures FeatureEngineering.ChargeRow(BlankChargesRow).Err?
    ensures EngineeredAsWritten(BlankChargesFrame).Err?
    ensures FromLoaded(BlankChargesFrame, env, baseId).Stopped?
    ensures FromLoaded(BlankChargesFrame, env, baseId).reached == 2
  {
    var f := BlankChargesFrame;
    assert Cell(BlankChargesRow, "TotalCharges") == Str(" ");
    assert f.rows[0] == BlankChargesRow;
    assert FeatureEngineering.ChargeFeatures(f).Err?;
  }

  /**
   * Cleaning first repairs every TotalCharges before the charge features read it:
   * each row with a numeric, non-negative tenure and a numeric MonthlyCharges gets
   * its charge features, whatever its TotalCharges held.
   */
  lemma CleanFirstCharges(df: Frame, i: nat, t: real)
    requires WellFormed(df) && i < |df.rows|
    requires "tenure" in df.columns && "MonthlyCharges" in df.columns && "TotalCharges" in df.columns
    requires Cell(df.rows[i], "tenure") == Num(t) && t >= 0.0
    requires Cell(df.rows[i], "MonthlyCharges").Num?
    ensures DataProcessing.Clean(df).Ok?
    ensures FeatureEngineering.ChargeRow(DataProcessing.Clean(df).value.rows[i]).Ok?
  {
    var cleaned := DataProcessing.Clean(df).value;
    DataProcessing.CleanTotalCharges(df, i);
    DataProcessing.CleanKeepsNumber(df, "tenure", i);
    DataProcessing.CleanKeepsNumber(df, "MonthlyCharges", i);
    var row := cleaned.rows[i];
    FeatureEngineering.ChargeRowValues(row, t, Cell(row, "MonthlyCharges").x, Cell(row, "TotalCharges").x);
  }
}
