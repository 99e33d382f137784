/**
 * The metrics endpoints: the latest stored metrics of each model, the comparison of
 * the three trained models with the best of them, the dashboard counts over the
 * stored predictions, and the feature importances and confusion matrix of one model.
 */
module MetricsRoutes {
  import opened Wrappers
  import opened Values
  import opened Strings
  import opened Ranking
  import opened Numbers
  import opened Records
  import Inference

  // ------------------------------------------------------------------ /metrics

  /** `ORDER BY model_name, trained_at DESC`: by name, then newest first; a NULL date sorts last. */
  predicate NameThenNewest(a: ModelMetric, b: ModelMetric) {
    || StrLess(a.modelName, b.modelName)
    || (a.modelName == b.modelName && TimeKey(a.trainedAt) >= TimeKey(b.trainedAt))
  }

  lemma NameThenNewestOrders()
    ensures TotalPreorder(NameThenNewest)
  {
    forall a: ModelMetric, b: ModelMetric
      ensures NameThenNewest(a, b) || NameThenNewest(b, a)
    {
      if a.modelName != b.modelName {
        StrLessTotal(a.modelName, b.modelName);
      }
    }
    forall a: ModelMetric, b: ModelMetric, c: ModelMetric | NameThenNewest(a, b) && NameThenNewest(b, c)
      ensures NameThenNewest(a, c)
    {
      if StrLess(a.modelName, b.modelName) && StrLess(b.modelName, c.modelName) {
        StrLessTransitive(a.modelName, b.modelName, c.modelName);
      }
    }
  }

  /** The position of the first row named `name`, or `|rows|` when there is none. */
  function FirstNamed(rows: seq<ModelMetric>, name: string): (i: nat)
    ensures i <= |rows|
    ensures i < |rows| ==> rows[i].modelName == name
    ensures forall j :: 0 <= j < i ==> rows[j].modelName != name
  {
    if rows == [] then 0
    else if rows[0].modelName == name then 0
    else
      var i := 1 + FirstNamed(rows[1..], name);
      assert forall j :: 1 <= j < i ==> rows[j] == rows[1..][j - 1];
      i
  }

  /** The first-occurrence property pins the position down. */
  lemma FirstNamedUnique(rows: seq<ModelMetric>, name: string, i: nat)
    requires i <= |rows| && (i < |rows| ==> rows[i].modelName == name)
    requires forall j :: 0 <= j < i ==> rows[j].modelName != name
    ensures FirstNamed(rows, name) == i
  {
  }

  /**
   * The `metrics_by_model` dictionary after the loop has seen `rows`: a name is
   * added, with its row's `to_dict()`, only the first time it occurs.
   */
  function FirstPerName(rows: seq<ModelMetric>): Dict<Value>
    decreases |rows|
  {
    if rows == [] then []
    else
      var d := FirstPerName(rows[..|rows| - 1]);
      var m := rows[|rows| - 1];
      if m.modelName in Keys(d) then d else d + [(m.modelName, Object(ModelMetricToDict(m)))]
  }

  /** Dropping the last row: a name first found earlier stays where it was. */
  lemma FirstNamedInit(rows: seq<ModelMetric>, n: string)
    requires rows != []
    ensures var init := rows[..|rows| - 1];
      && (FirstNamed(init, n) < |init| ==> FirstNamed(rows, n) == FirstNamed(init, n))
      && (FirstNamed(init, n) == |init| ==>
            FirstNamed(rows, n) == if rows[|rows| - 1].modelName == n then |init| else |rows|)
  {
    var init := rows[..|rows| - 1];
    assert forall j :: 0 <= j < |init| ==> init[j] == rows[j];
    var i := FirstNamed(init, n);
    if i < |init| {
      FirstNamedUnique(rows, n, i);
    } else if rows[|rows| - 1].modelName == n {
      FirstNamedUnique(rows, n, |init|);
    } else {
      FirstNamedUnique(rows, n, |rows|);
    }
  }

  /** The loop's keys are distinct: exactly the names that occur in `rows`. */
  lemma {:induction false} FirstPerNameKeys(rows: seq<ModelMetric>)
    ensures var d := FirstPerName(rows);
      && Distinct(Keys(d))
      && (forall n :: n in Keys(d) <==> FirstNamed(rows, n) < |rows|)
    decreases |rows|
  {
    if rows != [] {
      var init := rows[..|rows| - 1];
      var m := rows[|rows| - 1];
      var d' := FirstPerName(init);
      FirstPerNameKeys(init);
      forall n {
        FirstNamedInit(rows, n);
      }
      if m.modelName !in Keys(d') {
        assert Keys(FirstPerName(rows)) == Keys(d') + [m.modelName];
      }
    }
  }

  /** Each entry of the loop holds the projection of the first row with its name. */
  lemma {:induction false} FirstPerNameValues(rows: seq<ModelMetric>)
    ensures forall k :: 0 <= k < |FirstPerName(rows)| ==>
      FirstNamed(rows, FirstPerName(rows)[k].0) < |rows| &&
      FirstPerName(rows)[k].1 == Object(ModelMetricToDict(rows[FirstNamed(rows, FirstPerName(rows)[k].0)]))
    decreases |rows|
  {
    if rows != [] {
      var init := rows[..|rows| - 1];
      var m := rows[|rows| - 1];
      var d' := FirstPerName(init);
      FirstPerNameValues(init);
      FirstPerNameKeys(init);
      var d := FirstPerName(rows);
      forall k | 0 <= k < |d|
        ensures FirstNamed(rows, d[k].0) < |rows| && d[k].1 == Object(ModelMetricToDict(rows[FirstNamed(rows, d[k].0)]))
      {
        FirstNamedInit(rows, d[k].0);
        if k < |d'| {
          assert d[k] == d'[k];
          assert d'[k].0 in Keys(d');
        } else {
          assert d[k] == (m.modelName, Object(ModelMetricToDict(m)));
        }
      }
    }
  }

  /** `set(m.model_name for m in rows)`. */
  function NameSet(rows: seq<ModelMetric>): set<string> {
    set m | m in rows :: m.modelName
  }

  datatype MetricsResponse = MetricsResponse(metrics: Dict<Value>, count: int)

  /** The `/metrics` answer for the stored `table`. */
  function ModelMetrics(table: seq<ModelMetric>): MetricsResponse {
    var d := FirstPerName(SortBy(table, NameThenNewest));
    MetricsResponse(d, |d|)
  }

  /** `GET /metrics`: the query, then the loop that keeps the first row of each name. */
  method GetModelMetrics(db: Database) returns (r: MetricsResponse)
    ensures r == ModelMetrics(db.metrics)
  {
    var ordered := SortBy(db.metrics, NameThenNewest);
    var byModel: Dict<Value> := [];
    for i := 0 to |ordered|
      invariant byModel == FirstPerName(ordered[..i])
    {
      assert ordered[..i + 1][..i] == ordered[..i];
      if ordered[i].modelName !in Keys(byModel) {
        byModel := byModel + [(ordered[i].modelName, Object(ModelMetricToDict(ordered[i])))];
      }
    }
    assert ordered[..|ordered|] == ordered;
    return MetricsResponse(byModel, |byModel|);
  }

  /** The query's rows are in `ORDER BY model_name, trained_at DESC` order and are the table's rows. */
  lemma QueryOrdered(table: seq<ModelMetric>)
    ensures var rows := SortBy(table, NameThenNewest);
      && SortedBy(rows, NameThenNewest)
      && forall t :: t in table <==> t in rows
  {
    var rows := SortBy(table, NameThenNewest);
    NameThenNewestOrders();
    SortBySorted(table, NameThenNewest);
    forall t
      ensures t in table <==> t in rows
    {
      assert t in table <==> t in multiset(table);
      assert t in rows <==> t in multiset(rows);
    }
  }

  /** The names the loop keeps are the names in the table. */
  lemma FirstPerNameNames(table: seq<ModelMetric>)
    ensures forall n :: n in Keys(FirstPerName(SortBy(table, NameThenNewest))) <==> n in NameSet(table)
  {
    var rows := SortBy(table, NameThenNewest);
    FirstPerNameKeys(rows);
    QueryOrdered(table);
    forall n | n in NameSet(table)
      ensures FirstNamed(rows, n) < |rows|
    {
      var t :| t in table && t.modelName == n;
      var p :| 0 <= p < |rows| && rows[p] == t;
      assert FirstNamed(rows, n) <= p;
    }
  }

  /** `/metrics` has one entry per distinct model name in the table, and its count is their number. */
  lemma ModelMetricsNames(table: seq<ModelMetric>)
    ensures var r := ModelMetrics(table);
      && r.count == |NameSet(table)|
      && (forall n :: n in Keys(r.metrics) <==> n in NameSet(table))
  {
    var d := FirstPerName(SortBy(table, NameThenNewest));
    FirstPerNameKeys(SortBy(table, NameThenNewest));
    FirstPerNameNames(table);
    assert (set n | n in Keys(d)) == NameSet(table);
    DistinctCard(Keys(d));
  }

  function TrainedKey(m: ModelMetric): real { TimeKey(m.trainedAt) }

  /** `m` is a newest stored row of model `name`. */
  ghost predicate Newest(table: seq<ModelMetric>, name: string, m: ModelMetric) {
    && m in table && m.modelName == name
    && forall t :: t in table && t.modelName == name ==> TrainedKey(t) <= TrainedKey(m)
  }

  /** The first row of a name in the query is a newest stored row of that name. */
  lemma FirstNamedNewest(table: seq<ModelMetric>, n: string)
    requires FirstNamed(SortBy(table, NameThenNewest), n) < |table|
    ensures var rows := SortBy(table, NameThenNewest);
      Newest(table, n, rows[FirstNamed(rows, n)])
  {
    var rows := SortBy(table, NameThenNewest);
    var i := FirstNamed(rows, n);
    QueryOrdered(table);
    assert rows[i] in rows;
    StrLessIrreflexive(n);
    forall t | t in table && t.modelName == n
      ensures TrainedKey(t) <= TrainedKey(rows[i])
    {
      var p :| 0 <= p < |rows| && rows[p] == t;
      if p != i {
        assert i < p;
        assert NameThenNewest(rows[i], rows[p]);
      }
    }
  }

  /**
   * Each entry of `/metrics` is the projection of a newest stored row of its model
   * (the first in table order among equally new ones).
   */
  lemma ModelMetricsLatest(table: seq<ModelMetric>)
    ensures var r := ModelMetrics(table);
      var rows := SortBy(table, NameThenNewest);
      forall k :: 0 <= k < |r.metrics| ==>
        FirstNamed(rows, r.metrics[k].0) < |rows| &&
        var m := rows[FirstNamed(rows, r.metrics[k].0)];
        Newest(table, r.metrics[k].0, m) && r.metrics[k].1 == Object(ModelMetricToDict(m))
  {
    var rows := SortBy(table, NameThenNewest);
    var d := FirstPerName(rows);
    assert ModelMetrics(table).metrics == d;
    FirstPerNameValues(rows);
    forall k | 0 <= k < |d|
      ensures FirstNamed(rows, d[k].0) < |rows|
      ensures Newest(table, d[k].0, rows[FirstNamed(rows, d[k].0)])
    {
      FirstNamedNewest(table, d[k].0);
    }
  }

  // ------------------------------------------------------------ latest of one

  /** `query(ModelMetric).filter(model_name == name).order_by(desc(trained_at)).first()`. */
  function LatestOf(table: seq<ModelMetric>, name: string): Option<ModelMetric> {
    var newest := SortDesc(Filter(table, (m: ModelMetric) => m.modelName == name), TrainedKey);
    if newest == [] then None else Some(newest[0])
  }

  /** The query finds a row exactly when the model has one, and then a newest one. */
  lemma LatestOfNewest(table: seq<ModelMetric>, name: string)
    ensures LatestOf(table, name).None? <==> forall t :: t in table ==> t.modelName != name
    ensures LatestOf(table, name).Some? ==> Newest(table, name, LatestOf(table, name).value)
  {
    var named := Filter(table, (m: ModelMetric) => m.modelName == name);
    var newest := SortDesc(named, TrainedKey);
    forall t | t in table && t.modelName == name
      ensures t in newest
    {
      var i :| 0 <= i < |table| && table[i] == t;
      assert t in named;
      assert t in multiset(named);
    }
    if newest != [] {
      assert newest[0] in multiset(named);
      forall t | t in table && t.modelName == name
        ensures TrainedKey(t) <= TrainedKey(newest[0])
      {
        var p :| 0 <= p < |newest| && newest[p] == t;
        if p > 0 {
          assert TrainedKey(newest[0]) >= TrainedKey(newest[p]);
        }
      }
    }
  }

  // --------------------------------------------------------- /metrics/comparison

  const ComparedModels := ["Logistic Regression", "Random Forest", "XGBoost"]

  /** One comparison entry: the five scores to four decimals and the training date. */
  datatype Scores = Scores(accuracy: real, precision: real, recall: real, f1Score: real, rocAuc: real,
                           trainedAt: Value)

  /** What `round(None, 4)` raises, which the route answers with status 500. */
  const RoundNone := ApiError(500, "type NoneType doesn't define __round__ method")

  /** The entry of one stored row; a NULL score cannot be rounded. */
  function ScoresOf(m: ModelMetric): (r: Result<Scores, ApiError>)
    ensures r.Err? <==> m.accuracy.None? || m.precision.None? || m.recall.None? || m.f1Score.None? || m.rocAuc.None?
    ensures r.Err? ==> r.error == RoundNone
    ensures r.Ok? ==> r.value.accuracy == Round4(m.accuracy.value) && r.value.precision == Round4(m.precision.value)
    ensures r.Ok? ==> r.value.recall == Round4(m.recall.value) && r.value.f1Score == Round4(m.f1Score.value)
    ensures r.Ok? ==> r.value.rocAuc == Round4(m.rocAuc.value)
    ensures r.Ok? ==> -0.00005 <= r.value.accuracy - m.accuracy.value <= 0.00005
    ensures r.Ok? ==> -0.00005 <= r.value.precision - m.precision.value <= 0.00005
    ensures r.Ok? ==> -0.00005 <= r.value.recall - m.recall.value <= 0.00005
    ensures r.Ok? ==> -0.00005 <= r.value.f1Score - m.f1Score.value <= 0.00005
    ensures r.Ok? ==> -0.00005 <= r.value.rocAuc - m.rocAuc.value <= 0.00005
    ensures r.Ok? ==> r.value.trainedAt == IsoOrNone(m.trainedAt)
    ensures r.Ok? ==> (r.value.trainedAt == Null <==> m.trainedAt.None?)
  {
    if m.accuracy.None? || m.precision.None? || m.recall.None? || m.f1Score.None? || m.rocAuc.None? then
      Err(RoundNone)
    else
      Ok(Scores(Round4(m.accuracy.value), Round4(m.precision.value), Round4(m.recall.value),
                Round4(m.f1Score.value), Round4(m.rocAuc.value), IsoOrNone(m.trainedAt)))
  }

  /** The newest-row query of each name, as the comparison loop issues it. */
  function Latest(table: seq<ModelMetric>): string -> Option<ModelMetric> {
    n => LatestOf(table, n)
  }

  /** Whether the query `find` returns a row for a name. */
  function Stored(find: string -> Option<ModelMetric>): string -> bool {
    n => find(n).Some?
  }

  /** The entry `e` is the one the loop builds for its model from the row `find` returns. */
  ghost predicate Entry(find: string -> Option<ModelMetric>, e: (string, Scores)) {
    find(e.0).Some? && ScoresOf(find(e.0).value) == Ok(e.1)
  }

  /** A name whose returned row has a NULL score. */
  ghost predicate Unroundable(find: string -> Option<ModelMetric>, name: string) {
    find(name).Some? && ScoresOf(find(name).value).Err?
  }

  /** The comparison loop from the `i`-th of `names` on, with the query `find` and the entries `done` so far. */
  function CompareFrom(find: string -> Option<ModelMetric>, names: seq<string>, i: nat, done: Dict<Scores>): Result<Dict<Scores>, ApiError>
    requires i <= |names|
    decreases |names| - i
  {
    if i == |names| then Ok(done)
    else
      match find(names[i])
      case None => CompareFrom(find, names, i + 1, done)
      case Some(m) =>
        match ScoresOf(m)
        case Err(e) => Err(e)
        case Ok(s) => CompareFrom(find, names, i + 1, done + [(names[i], s)])
  }

  /** The loop from name `i` fails exactly when a remaining name's row has a NULL score. */
  lemma {:induction false} CompareFromErr(find: string -> Option<ModelMetric>, names: seq<string>, i: nat, done: Dict<Scores>)
    requires i <= |names|
    ensures CompareFrom(find, names, i, done).Err? <==>
      exists j :: i <= j < |names| && Unroundable(find, names[j])
    ensures CompareFrom(find, names, i, done).Err? ==> CompareFrom(find, names, i, done).error == RoundNone
    decreases |names| - i
  {
    if i < |names| {
      var latest := find(names[i]);
      if latest.None? || ScoresOf(latest.value).Ok? {
        var done' := if latest.None? then done else done + [(names[i], ScoresOf(latest.value).value)];
        CompareFromErr(find, names, i + 1, done');
        assert !Unroundable(find, names[i]);
      } else {
        assert Unroundable(find, names[i]);
      }
    }
  }

  /** Otherwise it appends, in the fixed order, the remaining names that have a stored row. */
  lemma {:induction false} CompareFromKeys(find: string -> Option<ModelMetric>, names: seq<string>, i: nat, done: Dict<Scores>)
    requires i <= |names|
    ensures CompareFrom(find, names, i, done).Ok? ==>
      Keys(CompareFrom(find, names, i, done).value) == Keys(done) + Filter(names[i..], Stored(find))
    decreases |names| - i
  {
    if i < |names| {
      var n := names[i];
      var rest := names[i..];
      assert rest[0] == n && rest[1..] == names[i + 1..];
      var latest := find(n);
      if latest.None? {
        CompareFromKeys(find, names, i + 1, done);
        assert !Stored(find)(n);
      } else if ScoresOf(latest.value).Ok? {
        var done' := done + [(n, ScoresOf(latest.value).value)];
        CompareFromKeys(find, names, i + 1, done');
        assert Stored(find)(n);
        assert Keys(done') == Keys(done) + [n];
      }
    }
  }

  /** Each entry it appends is built from the row returned for its name. */
  lemma {:induction false} CompareFromEntries(find: string -> Option<ModelMetric>, names: seq<string>, i: nat, done: Dict<Scores>)
    requires i <= |names|
    requires forall k :: 0 <= k < |done| ==> Entry(find, done[k])
    ensures CompareFrom(find, names, i, done).Ok? ==>
      forall k :: 0 <= k < |CompareFrom(find, names, i, done).value| ==> Entry(find, CompareFrom(find, names, i, done).value[k])
    decreases |names| - i
  {
    if i < |names| {
      var n := names[i];
      var latest := find(n);
      if latest.None? {
        CompareFromEntries(find, names, i + 1, done);
      } else if ScoresOf(latest.value).Ok? {
        var done' := done + [(n, ScoresOf(latest.value).value)];
        assert Entry(find, (n, ScoresOf(latest.value).value));
        CompareFromEntries(find, names, i + 1, done');
      }
    }
  }

  datatype ComparisonResponse = ComparisonResponse(comparison: Dict<Scores>, bestModel: Option<string>)

  function RocOf(e: (string, Scores)): real { e.1.rocAuc }

  /**
   * `max(latest_metrics.items(), key=roc_auc)[0] if latest_metrics else None`: the
   * first entry with the largest rounded ROC-AUC.
   */
  function BestOf(c: Dict<Scores>): (b: Option<string>)
    ensures b.None? <==> c == []
    ensures b.Some? ==> exists k :: (0 <= k < |c| && c[k].0 == b.value
      && (forall j :: 0 <= j < |c| ==> c[j].1.rocAuc <= c[k].1.rocAuc)
      && (forall j :: 0 <= j < k ==> c[j].1.rocAuc < c[k].1.rocAuc))
  {
    if c == [] then None
    else
      var k := ArgMax(c, RocOf);
      assert forall j :: 0 <= j < |c| ==> RocOf(c[j]) == c[j].1.rocAuc;
      Some(c[k].0)
  }

  /** The `/metrics/comparison` answer for the stored `table`. */
  function ModelComparison(table: seq<ModelMetric>): Result<ComparisonResponse, ApiError> {
    match CompareFrom(Latest(table), ComparedModels, 0, [])
    case Err(e) => Err(e)
    case Ok(c) => Ok(ComparisonResponse(c, BestOf(c)))
  }

  /** `GET /metrics/comparison`: the loop over the three names, then the best of them. */
  method GetModelComparison(db: Database) returns (r: Result<ComparisonResponse, ApiError>)
    ensures r == ModelComparison(db.metrics)
  {
    var latest: Dict<Scores> := [];
    for i := 0 to |ComparedModels|
      invariant CompareFrom(Latest(db.metrics), ComparedModels, i, latest) == CompareFrom(Latest(db.metrics), ComparedModels, 0, [])
    {
      var metric := LatestOf(db.metrics, ComparedModels[i]);
      assert metric == Latest(db.metrics)(ComparedModels[i]);
      if metric.Some? {
        var scores := ScoresOf(metric.value);
        if scores.Err? {
          return Err(scores.error);
        }
        latest := latest + [(ComparedModels[i], scores.value)];
      }
    }
    return Ok(ComparisonResponse(latest, BestOf(latest)));
  }

  /**
   * The comparison fails with status 500 exactly when one of the three models' newest
   * row has a NULL score. Otherwise it lists, in the fixed order, exactly the three
   * names that have a stored row, each with the rounded scores of its newest row,
   * and the best model is None exactly when that list is empty.
   */
  lemma ComparisonCovers(table: seq<ModelMetric>)
    ensures var r := ModelComparison(table);
      && (r.Err? <==> exists j :: 0 <= j < |ComparedModels| && Unroundable(Latest(table), ComparedModels[j]))
      && (r.Err? ==> r.error == RoundNone)
      && (r.Ok? ==> Keys(r.value.comparison) == Filter(ComparedModels, Stored(Latest(table))))
      && (r.Ok? ==> (r.value.bestModel.None? <==> forall n :: n in ComparedModels ==> LatestOf(table, n).None?))
  {
    var find := Latest(table);
    CompareFromErr(find, ComparedModels, 0, []);
    CompareFromKeys(find, ComparedModels, 0, []);
    assert ComparedModels[0..] == ComparedModels;
    var r := ModelComparison(table);
    if r.Ok? {
      var c := r.value.comparison;
      var stored := Filter(ComparedModels, Stored(find));
      assert |Keys(c)| == |stored|;
      forall n | n in ComparedModels && LatestOf(table, n).Some?
        ensures stored != []
      {
        var i :| 0 <= i < |ComparedModels| && ComparedModels[i] == n;
        assert Stored(find)(ComparedModels[i]);
      }
      if stored != [] {
        assert Stored(find)(stored[0]);
      }
    }
  }

  /** Each compared model's entry holds the rounded scores of a newest stored row of it. */
  lemma ComparisonNewest(table: seq<ModelMetric>)
    ensures var r := ModelComparison(table);
      r.Ok? ==> forall k :: 0 <= k < |r.value.comparison| ==>
        var e := r.value.comparison[k];
        && LatestOf(table, e.0).Some?
        && Newest(table, e.0, LatestOf(table, e.0).value)
        && ScoresOf(LatestOf(table, e.0).value) == Ok(e.1)
  {
    var find := Latest(table);
    CompareFromEntries(find, ComparedModels, 0, []);
    var r := ModelComparison(table);
    if r.Ok? {
      var c := r.value.comparison;
      forall k | 0 <= k < |c|
        ensures LatestOf(table, c[k].0).Some? && Newest(table, c[k].0, LatestOf(table, c[k].0).value)
        ensures ScoresOf(LatestOf(table, c[k].0).value) == Ok(c[k].1)
      {
        assert Entry(find, c[k]);
        LatestOfNewest(table, c[k].0);
      }
    }
  }

  // ---------------------------------------------------------- /metrics/dashboard

  /** Microseconds in a day, the unit of the stored timestamps. */
  const Day := 86_400_000_000

  /** How many predictions carry the risk label `level`. */
  function RiskCount(preds: seq<Prediction>, level: string): (n: nat)
    ensures n <= |preds|
    decreases |preds|
  {
    if preds == [] then 0
    else RiskCount(preds[..|preds| - 1], level) + (if preds[|preds| - 1].riskLevel == Some(level) then 1 else 0)
  }

  /** How many predictions are dated at or after `since`; an undated one never is. */
  function CountSince(preds: seq<Prediction>, since: int): (n: nat)
    ensures n <= |preds|
    decreases |preds|
  {
    if preds == [] then 0
    else
      var p := preds[|preds| - 1];
      CountSince(preds[..|preds| - 1], since)
        + (if p.predictionDate.Some? && p.predictionDate.value.ticks >= since then 1 else 0)
  }

  function SumProbability(preds: seq<Prediction>): real
    decreases |preds|
  {
    if preds == [] then 0.0 else SumProbability(preds[..|preds| - 1]) + preds[|preds| - 1].churnProbability
  }

  /** `AVG(churn_probability)`, which is NULL over no rows; `or 0` turns that into 0. */
  function AverageProbability(preds: seq<Prediction>): real {
    if preds == [] then 0.0 else SumProbability(preds) / |preds| as real
  }

  datatype Kpis = Kpis(totalPredictions: int, recentPredictions: int, avgChurnProbability: real,
                       highRiskCount: int, mediumRiskCount: int, lowRiskCount: int)

  datatype Dashboard = Dashboard(kpis: Kpis, riskDistribution: Dict<int>)

  /** `GET /metrics/dashboard` at the time `now`, without the daily trend. */
  function DashboardMetrics(preds: seq<Prediction>, now: Timestamp): (r: Dashboard)
    ensures r.kpis.totalPredictions == |preds|
    ensures 0 <= r.kpis.recentPredictions <= r.kpis.totalPredictions
    ensures 0 <= r.kpis.highRiskCount <= r.kpis.totalPredictions
    ensures 0 <= r.kpis.mediumRiskCount <= r.kpis.totalPredictions
    ensures 0 <= r.kpis.lowRiskCount <= r.kpis.totalPredictions
  {
    var high := RiskCount(preds, Inference.High);
    var medium := RiskCount(preds, Inference.Medium);
    var low := RiskCount(preds, Inference.Low);
    Dashboard(
      Kpis(|preds|, CountSince(preds, now.ticks - 7 * Day), Round4(AverageProbability(preds)), high, medium, low),
      [("HIGH", high), ("MEDIUM", medium), ("LOW", low)])
  }

  /** `risk_distribution` repeats the three KPI counts under the labels the predictor emits. */
  lemma DashboardDistribution(preds: seq<Prediction>, now: Timestamp)
    ensures var r := DashboardMetrics(preds, now);
      && Keys(r.riskDistribution) == [Inference.High, Inference.Medium, Inference.Low]
      && Get(r.riskDistribution, Inference.High) == Some(r.kpis.highRiskCount)
      && Get(r.riskDistribution, Inference.Medium) == Some(r.kpis.mediumRiskCount)
      && Get(r.riskDistribution, Inference.Low) == Some(r.kpis.lowRiskCount)
  {
    var d := DashboardMetrics(preds, now).riskDistribution;
    assert "MEDIUM"[0] != "HIGH"[0] && "LOW"[0] != "HIGH"[0] && "LOW"[0] != "MEDIUM"[0];
    KeyIndexUnique(d, "HIGH", 0);
    KeyIndexUnique(d, "MEDIUM", 1);
    KeyIndexUnique(d, "LOW", 2);
  }

  /** Every prediction carries the label the predictor gives its probability. */
  ghost predicate Labelled(preds: seq<Prediction>) {
    forall i :: 0 <= i < |preds| ==> preds[i].riskLevel == Some(Inference.RiskLevel(preds[i].churnProbability))
  }

  /** Over predictions labelled by the predictor, the three risk counts add up to the total. */
  lemma {:induction false} RiskCountsPartition(preds: seq<Prediction>)
    requires Labelled(preds)
    ensures RiskCount(preds, Inference.High) + RiskCount(preds, Inference.Medium) + RiskCount(preds, Inference.Low)
            == |preds|
    decreases |preds|
  {
    if preds != [] {
      var init := preds[..|preds| - 1];
      assert forall i :: 0 <= i < |init| ==> init[i] == preds[i];
      RiskCountsPartition(init);
      var level := Inference.RiskLevel(preds[|preds| - 1].churnProbability);
      assert "MEDIUM"[0] != "HIGH"[0] && "LOW"[0] != "HIGH"[0] && "LOW"[0] != "MEDIUM"[0];
    }
  }

  lemma {:induction false} SumProbabilityBounds(preds: seq<Prediction>)
    requires forall i :: 0 <= i < |preds| ==> 0.0 <= preds[i].churnProbability <= 1.0
    ensures 0.0 <= SumProbability(preds) <= |preds| as real
    decreases |preds|
  {
    if preds != [] {
      var init := preds[..|preds| - 1];
      assert forall i :: 0 <= i < |init| ==> init[i] == preds[i];
      SumProbabilityBounds(init);
    }
  }

  /** With every stored probability in [0, 1], the reported average is in [0, 1] too. */
  lemma DashboardAverageUnit(preds: seq<Prediction>, now: Timestamp)
    requires forall i :: 0 <= i < |preds| ==> 0.0 <= preds[i].churnProbability <= 1.0
    ensures 0.0 <= DashboardMetrics(preds, now).kpis.avgChurnProbability <= 1.0
  {
    SumProbabilityBounds(preds);
    if preds != [] {
      MeanUnit(SumProbability(preds), |preds|);
    }
    Round4Unit(AverageProbability(preds));
  }

  // --------------------------------------- /metrics/{feature-importance,confusion-matrix}

  function NotFound(name: string): ApiError {
    ApiError(404, "Metrics for " + name + " not found")
  }

  datatype ImportanceResponse = ImportanceResponse(modelName: string, featureImportance: Value, trainedAt: Value)

  /** `GET /metrics/feature-importance/{model_name}`. */
  function FeatureImportanceOf(table: seq<ModelMetric>, name: string): (r: Result<ImportanceResponse, ApiError>)
    ensures r.Err? <==> forall t :: t in table ==> t.modelName != name
    ensures r.Err? ==> r.error == NotFound(name)
    ensures r.Ok? ==> exists m :: (Newest(table, name, m) &&
      r.value == ImportanceResponse(name, m.featureImportance, IsoOrNone(m.trainedAt)))
  {
    LatestOfNewest(table, name);
    match LatestOf(table, name)
    case None => Err(NotFound(name))
    case Some(m) => Ok(ImportanceResponse(name, m.featureImportance, IsoOrNone(m.trainedAt)))
  }

  datatype ConfusionResponse = ConfusionResponse(
    modelName: string, confusionMatrix: Value,
    truePositives: Option<int>, trueNegatives: Option<int>,
    falsePositives: Option<int>, falseNegatives: Option<int>,
    trainedAt: Value)

  /** `GET /metrics/confusion-matrix/{model_name}`. */
  function ConfusionMatrixOf(table: seq<ModelMetric>, name: string): (r: Result<ConfusionResponse, ApiError>)
    ensures r.Err? <==> forall t :: t in table ==> t.modelName != name
    ensures r.Err? ==> r.error == NotFound(name)
    ensures r.Ok? ==> exists m :: (Newest(table, name, m) &&
      r.value == ConfusionResponse(name, m.confusionMatrix, m.truePositives, m.trueNegatives,
                                   m.falsePositives, m.falseNegatives, IsoOrNone(m.trainedAt)))
  {
    LatestOfNewest(table, name);
    match LatestOf(table, name)
    case None => Err(NotFound(name))
    case Some(m) =>
      Ok(ConfusionResponse(name, m.confusionMatrix, m.truePositives, m.trueNegatives,
                           m.falsePositives, m.falseNegatives, IsoOrNone(m.trainedAt)))
  }
}
