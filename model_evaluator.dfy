/**
 * Bookkeeping around model evaluation: the metrics, confusion matrices and reports
 * kept per model name, the best model by a metric, feature importances and the
 * comparison table. The scores themselves come from scikit-learn.
 */
module Evaluation {
  import opened Wrappers
  import opened Values
  import opened Ranking
  import opened Numbers
  import Strings

  /** The scores scikit-learn computes for a model's predictions on the test set. */
  datatype Scores = Scores(accuracy: real, precision: real, recall: real, f1Score: real, rocAuc: real)

  /**
   * A trained model as the evaluator sees it: its scores, confusion matrix and
   * classification report on the test set, and its optional importance attributes.
   */
  datatype Model = Model(
    scores: Scores,
    confusion: seq<seq<int>>,
    report: Value,
    featureImportances: Option<seq<real>>,
    coef: Option<seq<seq<real>>>)

  /** The metrics dictionary of one model: the five scores, then the four confusion counts. */
  datatype Metrics = Metrics(
    accuracy: real, precision: real, recall: real, f1Score: real, rocAuc: real,
    truePositives: int, trueNegatives: int, falsePositives: int, falseNegatives: int)

  const MetricNames := ["accuracy", "precision", "recall", "f1_score", "roc_auc",
                        "true_positives", "true_negatives", "false_positives", "false_negatives"]

  /** `metrics[name]`: None for a key the dictionary lacks. */
  function MetricValue(m: Metrics, name: string): (r: Option<real>)
    ensures r.Some? <==> name in MetricNames
  {
    if name == "accuracy" then Some(m.accuracy)
    else if name == "precision" then Some(m.precision)
    else if name == "recall" then Some(m.recall)
    else if name == "f1_score" then Some(m.f1Score)
    else if name == "roc_auc" then Some(m.rocAuc)
    else if name == "true_positives" then Some(m.truePositives as real)
    else if name == "true_negatives" then Some(m.trueNegatives as real)
    else if name == "false_positives" then Some(m.falsePositives as real)
    else if name == "false_negatives" then Some(m.falseNegatives as real)
    else None
  }

  /** numpy's `ravel`: the rows of a matrix one after the other. */
  function Ravel(cm: seq<seq<int>>): (r: seq<int>)
    ensures cm == [] ==> r == []
  {
    if cm == [] then [] else cm[0] + Ravel(cm[1..])
  }

  datatype Counts = Counts(tn: int, fp: int, fn: int, tp: int)

  /** `tn, fp, fn, tp = cm.ravel()`: raises unless the matrix has exactly four cells. */
  function Unpack(cm: seq<seq<int>>): (r: Result<Counts, string>)
    ensures r.Ok? <==> |Ravel(cm)| == 4
  {
    var flat := Ravel(cm);
    if |flat| < 4 then Err("not enough values to unpack (expected 4, got " + Strings.NatToString(|flat|) + ")")
    else if |flat| > 4 then Err("too many values to unpack (expected 4)")
    else Ok(Counts(flat[0], flat[1], flat[2], flat[3]))
  }

  /** A 2x2 matrix [[tn, fp], [fn, tp]] is read row by row. */
  lemma UnpackTwoByTwo(cm: seq<seq<int>>)
    requires |cm| == 2 && |cm[0]| == 2 && |cm[1]| == 2
    ensures Unpack(cm) == Ok(Counts(cm[0][0], cm[0][1], cm[1][0], cm[1][1]))
  {
    assert Ravel(cm[1..]) == cm[1] + Ravel(cm[2..]);
    assert Ravel(cm) == cm[0] + cm[1];
  }

  /**
   * Test labels and predictions all of one class give a 1x1 matrix, which does not
   * unpack. With scikit-learn 1.6 or later `roc_auc_score` only warns on one class, so
   * the matrix is stored before the unpacking raises.
   */
  lemma UnpackSingleClass(cm: seq<seq<int>>)
    requires |cm| == 1 && |cm[0]| == 1
    ensures Unpack(cm).Err?
  {
    assert Ravel(cm) == cm[0] + Ravel(cm[1..]);
  }

  /** The metrics `evaluate_model` returns for a model. */
  function MetricsOf(model: Model): (r: Result<Metrics, string>)
    ensures r.Ok? <==> Unpack(model.confusion).Ok?
    ensures r.Ok? ==> var c := Unpack(model.confusion).value;
      && r.value.accuracy == model.scores.accuracy && r.value.rocAuc == model.scores.rocAuc
      && r.value.precision == model.scores.precision && r.value.recall == model.scores.recall
      && r.value.f1Score == model.scores.f1Score
      && r.value.truePositives == c.tp && r.value.trueNegatives == c.tn
      && r.value.falsePositives == c.fp && r.value.falseNegatives == c.fn
  {
    var c :- Unpack(model.confusion);
    var s := model.scores;
    Ok(Metrics(s.accuracy, s.precision, s.recall, s.f1Score, s.rocAuc, c.tp, c.tn, c.fp, c.fn))
  }

  /** The metrics of every model, in the order of the models dictionary; the first failure raises. */
  function AllMetrics(models: Dict<Model>): (r: Result<Dict<Metrics>, string>)
    ensures r.Ok? <==> forall i :: 0 <= i < |models| ==> MetricsOf(models[i].1).Ok?
    ensures r.Ok? ==> Keys(r.value) == Keys(models)
    ensures r.Ok? ==> forall i :: 0 <= i < |models| ==> r.value[i].1 == MetricsOf(models[i].1).value
  {
    if models == [] then Ok([])
    else
      var init := models[..|models| - 1];
      var last := models[|models| - 1];
      assert forall i :: 0 <= i < |init| ==> init[i] == models[i];
      match AllMetrics(init)
      case Err(e) => Err(e)
      case Ok(rest) =>
        match MetricsOf(last.1)
        case Err(e) => Err(e)
        case Ok(m) =>
          var r := rest + [(last.0, m)];
          assert Keys(r) == Keys(init) + [last.0];
          assert Keys(models) == Keys(init) + [last.0];
          Ok(r)
  }

  /** One row of the comparison table: the five scores under their display names, rounded to four places. */
  function ComparisonRow(m: Metrics): (r: Dict<real>)
    ensures Keys(r) == ["Accuracy", "Precision", "Recall", "F1 Score", "ROC-AUC"]
    ensures forall i :: 0 <= i < 5 ==> r[i].1 == Round4(MetricValue(m, MetricNames[i]).value)
    ensures forall i :: 0 <= i < 5 ==> -0.00005 <= r[i].1 - MetricValue(m, MetricNames[i]).value <= 0.00005
  {
    [("Accuracy", Round4(m.accuracy)), ("Precision", Round4(m.precision)), ("Recall", Round4(m.recall)),
     ("F1 Score", Round4(m.f1Score)), ("ROC-AUC", Round4(m.rocAuc))]
  }

  /** The comparison table: one row per evaluated model, in evaluation order. */
  function Comparison(metrics: Dict<Metrics>): (r: Dict<Dict<real>>)
    ensures Keys(r) == Keys(metrics)
    ensures forall i :: 0 <= i < |metrics| ==> r[i].1 == ComparisonRow(metrics[i].1)
  {
    seq(|metrics|, i requires 0 <= i < |metrics| => (metrics[i].0, ComparisonRow(metrics[i].1)))
  }

  /** The metric of an entry, for a metric name every entry has. */
  function EntryMetric(metric: string): ((string, Metrics)) -> real {
    (e: (string, Metrics)) => MetricValue(e.1, metric).GetOr(0.0)
  }

  /**
   * `get_best_model`: raises when nothing was evaluated and for an unknown metric;
   * otherwise the first model (in evaluation order) with the largest value.
   */
  function BestModel(metrics: Dict<Metrics>, metric: string): (r: Result<(string, real), string>)
    ensures metrics == [] ==> r.Err?
    ensures metric !in MetricNames ==> r.Err?
    ensures r.Ok? ==> exists i :: 0 <= i < |metrics| && r.value == (metrics[i].0, MetricValue(metrics[i].1, metric).value)
    ensures r.Ok? ==> forall i :: 0 <= i < |metrics| ==> MetricValue(metrics[i].1, metric).value <= r.value.1
  {
    if metrics == [] then Err("No models have been evaluated yet")
    else if metric !in MetricNames then Err("'" + metric + "'")
    else
      var i := ArgMax(metrics, EntryMetric(metric));
      Ok((metrics[i].0, MetricValue(metrics[i].1, metric).value))
  }

  /** Ties go to the earliest-evaluated model: every model before the winner scores strictly less. */
  lemma BestModelFirst(metrics: Dict<Metrics>, metric: string)
    requires metrics != [] && metric in MetricNames
    ensures var i := ArgMax(metrics, EntryMetric(metric));
      && BestModel(metrics, metric) == Ok((metrics[i].0, MetricValue(metrics[i].1, metric).value))
      && forall j :: 0 <= j < i ==> MetricValue(metrics[j].1, metric).value < MetricValue(metrics[i].1, metric).value
  {
    var i := ArgMax(metrics, EntryMetric(metric));
    forall j | 0 <= j < i
      ensures MetricValue(metrics[j].1, metric).value < MetricValue(metrics[i].1, metric).value
    {
      assert EntryMetric(metric)(metrics[j]) < EntryMetric(metric)(metrics[i]);
    }
  }

  /** `np.abs`, element-wise. */
  function AbsAll(xs: seq<real>): (r: seq<real>)
    ensures |r| == |xs| && forall i :: 0 <= i < |xs| ==> r[i] == Abs(xs[i]) && r[i] >= 0.0
  {
    seq(|xs|, i requires 0 <= i < |xs| => Abs(xs[i]))
  }

  /**
   * `d` is `dict(zip(ks, vs))` for lists of equal length: one entry per name, each
   * pairing a name with one of its values, and a name whose last occurrence is at
   * `i` maps to `vs[i]`.
   */
  ghost predicate ZipsTo(d: Dict<real>, ks: seq<string>, vs: seq<real>)
    requires |ks| == |vs|
  {
    && Distinct(Keys(d))
    && (forall k :: k in Keys(d) <==> k in ks)
    && (forall e :: e in d ==> exists i :: 0 <= i < |ks| && e == (ks[i], vs[i]))
    && (forall i :: 0 <= i < |ks| && (forall j :: i < j < |ks| ==> ks[j] != ks[i]) ==> Get(d, ks[i]) == Some(vs[i]))
  }

  /**
   * `dict(zip(names, values))`: the pairs up to the shorter list, assigned in turn,
   * so a repeated name keeps its first place and its last value; there are as many
   * entries as distinct zipped names.
   */
  function ZipDict(names: seq<string>, values: seq<real>): (r: Dict<real>)
    ensures var n := Ranking.Min(|names|, |values|); ZipsTo(r, names[..n], values[..n])
    ensures |r| == |set k | k in names[..Ranking.Min(|names|, |values|)]|
    decreases |names|
  {
    var n := Ranking.Min(|names|, |values|);
    if n == 0 then
      assert names[..n] == [];
      []
    else
      var init := ZipDict(names[..n - 1], values[..n - 1]);
      assert names[..n - 1][..n - 1] == names[..n][..n - 1] && values[..n - 1][..n - 1] == values[..n][..n - 1];
      ZipsToPut(init, names[..n], values[..n]);
      var r := Put(init, names[n - 1], values[n - 1]);
      ZipsToCard(r, names[..n], values[..n]);
      r
  }

  /** Assigning the last pair extends `dict(zip(...))` by one pair. */
  lemma ZipsToPut(d: Dict<real>, ks: seq<string>, vs: seq<real>)
    requires |ks| == |vs| > 0
    requires ZipsTo(d, ks[..|ks| - 1], vs[..|vs| - 1])
    ensures ZipsTo(Put(d, ks[|ks| - 1], vs[|vs| - 1]), ks, vs)
  {
    var m := |ks| - 1;
    var k, v := ks[m], vs[m];
    var ks', vs' := ks[..m], vs[..m];
    var r := Put(d, k, v);
    PutDistinct(d, k, v);
    assert ks == ks' + [k];
    forall e | e in r
      ensures exists i :: 0 <= i < |ks| && e == (ks[i], vs[i])
    {
      var j :| 0 <= j < |r| && r[j] == e;
      if e.0 == k {
        assert e == (k, v) by {
          assert Keys(r)[j] == k;
          KeyIndexDistinct(r, j);
        }
      } else {
        assert Get(r, e.0) == Get(d, e.0);
        assert e in d by {
          KeyIndexDistinct(r, j);
          KeyIndexIn(d, e.0);
        }
        var i :| 0 <= i < m && e == (ks'[i], vs'[i]);
        assert e == (ks[i], vs[i]);
      }
    }
    forall i | 0 <= i < |ks| && (forall j :: i < j < |ks| ==> ks[j] != ks[i])
      ensures Get(r, ks[i]) == Some(vs[i])
    {
      if i < m {
        assert ks[m] != ks[i];
        assert ks'[i] == ks[i] && vs'[i] == vs[i];
        assert forall j :: i < j < m ==> ks'[j] != ks'[i];
      }
    }
  }

  /** A dictionary zipped from `ks` has one entry per distinct name of `ks`. */
  lemma ZipsToCard(d: Dict<real>, ks: seq<string>, vs: seq<real>)
    requires |ks| == |vs| && ZipsTo(d, ks, vs)
    ensures |d| == |set k | k in ks|
  {
    DistinctCard(Keys(d));
    assert (set k | k in Keys(d)) == (set k | k in ks);
  }

  /** In a dictionary with distinct keys, looking up the key of an entry finds that entry. */
  lemma KeyIndexDistinct<V>(d: Dict<V>, j: nat)
    requires Distinct(Keys(d)) && j < |d|
    ensures Get(d, d[j].0) == Some(d[j].1)
  {
    forall i | 0 <= i < j
      ensures d[i].0 != d[j].0
    {
      assert Keys(d)[i] != Keys(d)[j];
    }
    KeyIndexUnique(d, d[j].0, j);
  }

  function Importance(e: (string, real)): real { e.1 }

  /**
   * `dict(sorted(zip(names, importances).items(), reverse=True)[:top_n])`: the `top_n`
   * most important features, in descending order, ties in the order of `names`.
   */
  function TopImportances(names: seq<string>, importances: seq<real>, topN: int): (r: Dict<real>)
    ensures topN >= 0 ==> |r| == Ranking.Min(topN, |set k | k in names[..Ranking.Min(|names|, |importances|)]|)
    ensures SortedDesc(r, Importance)
  {
    SliceTo(SortDesc(ZipDict(names, importances), Importance), topN)
  }

  /**
   * `get_feature_importance`: the `feature_importances_` attribute, else |coef_[0]|,
   * else the empty dictionary; then the `top_n` largest, in descending order.
   */
  function FeatureImportance(model: Model, names: seq<string>, topN: int): (r: Result<Dict<real>, string>)
    ensures model.featureImportances.Some? ==> r == Ok(TopImportances(names, model.featureImportances.value, topN))
    ensures model.featureImportances.None? && model.coef.Some? && model.coef.value != [] ==>
      r == Ok(TopImportances(names, AbsAll(model.coef.value[0]), topN))
    ensures model.featureImportances.None? && model.coef.Some? && model.coef.value == [] ==> r.Err?
    ensures model.featureImportances.None? && model.coef.None? ==> r == Ok([])
  {
    if model.featureImportances.Some? then Ok(TopImportances(names, model.featureImportances.value, topN))
    else if model.coef.Some? then
      if model.coef.value == [] then Err("index 0 is out of bounds for axis 0 with size 0")
      else Ok(TopImportances(names, AbsAll(model.coef.value[0]), topN))
    else Ok([])
  }

  /** Every kept feature is paired with its own importance, and each feature appears once. */
  lemma TopImportancesFromZip(names: seq<string>, importances: seq<real>, topN: int)
    ensures Distinct(Keys(TopImportances(names, importances, topN)))
    ensures forall e :: e in TopImportances(names, importances, topN) ==>
      exists i :: 0 <= i < |names| && i < |importances| && e == (names[i], importances[i])
  {
    var zipped := ZipDict(names, importances);
    var n := Ranking.Min(|names|, |importances|);
    var all := SortDesc(zipped, Importance);
    var r := SliceTo(all, topN);
    assert forall k :: 0 <= k < |r| ==> r[k] == all[k];
    forall e | e in r
      ensures exists i :: 0 <= i < |names| && i < |importances| && e == (names[i], importances[i])
    {
      assert e in multiset(all);
      assert e in zipped;
      var i :| 0 <= i < n && e == (names[..n][i], importances[..n][i]);
      assert e == (names[i], importances[i]);
    }
    forall i, j | 0 <= i < j < |r|
      ensures Keys(r)[i] != Keys(r)[j]
    {
      DistinctPermutation(zipped, all, i, j);
    }
  }

  /** No feature left out of the table is more important than one kept. */
  lemma TopImportancesMostImportant(names: seq<string>, importances: seq<real>, topN: int, i: nat, j: nat)
    requires i < |TopImportances(names, importances, topN)| <= j < |ZipDict(names, importances)|
    ensures SortDesc(ZipDict(names, importances), Importance)[j].1 <= TopImportances(names, importances, topN)[i].1
  {
    var all := SortDesc(ZipDict(names, importances), Importance);
    assert TopImportances(names, importances, topN)[i] == all[i];
    assert Importance(all[i]) >= Importance(all[j]);
  }

  /** A permutation of a dictionary with distinct keys has distinct keys. */
  lemma DistinctPermutation(d: Dict<real>, p: Dict<real>, i: nat, j: nat)
    requires Distinct(Keys(d)) && multiset(p) == multiset(d) && i < j < |p|
    ensures p[i].0 != p[j].0
  {
    if p[i].0 == p[j].0 {
      assert p[i] in multiset(d) && p[j] in multiset(d);
      var a :| 0 <= a < |d| && d[a] == p[i];
      var b :| 0 <= b < |d| && d[b] == p[j];
      assert Keys(d)[a] == Keys(d)[b];
      if a == b {
        assert p[i] == p[j];
        assert multiset(p)[p[i]] >= 2 by {
          assert multiset{p[i], p[j]} <= multiset(p) by {
            assert p == p[..i] + [p[i]] + p[i + 1..j] + [p[j]] + p[j + 1..];
          }
        }
        MultisetOfDistinct(d, a);
      }
    }
  }

  /** In a dictionary with distinct keys, every entry occurs once. */
  lemma MultisetOfDistinct(d: Dict<real>, a: nat)
    requires Distinct(Keys(d)) && a < |d|
    ensures multiset(d)[d[a]] == 1
  {
    assert d == d[..a] + [d[a]] + d[a + 1..];
    assert d[a] !in d[..a] by {
      forall k | 0 <= k < a
        ensures d[k] != d[a]
      {
        assert Keys(d)[k] != Keys(d)[a];
      }
    }
    assert d[a] !in d[a + 1..] by {
      forall k | a + 1 <= k < |d|
        ensures d[k] != d[a]
      {
        assert Keys(d)[k] != Keys(d)[a];
      }
    }
  }

  /** The evaluator: metrics, confusion matrices and reports, each keyed by model name. */
  /** How many models `evaluate_all_models` gets through before the first one that raises. */
  function Evaluable(models: Dict<Model>): (f: nat)
    ensures f <= |models|
    ensures forall i :: 0 <= i < f ==> MetricsOf(models[i].1).Ok?
    ensures f < |models| ==> MetricsOf(models[f].1).Err?
  {
    if models == [] || MetricsOf(models[0].1).Err? then 0 else 1 + Evaluable(models[1..])
  }

  /** The metrics entries of the first `n` models, all of which evaluate. */
  function MetricEntries(models: Dict<Model>, n: nat): (r: Dict<Metrics>)
    requires n <= |models| && forall i :: 0 <= i < n ==> MetricsOf(models[i].1).Ok?
    ensures |r| == n && forall i :: 0 <= i < n ==> r[i] == (models[i].0, MetricsOf(models[i].1).value)
  {
    if n == 0 then [] else MetricEntries(models, n - 1) + [(models[n - 1].0, MetricsOf(models[n - 1].1).value)]
  }

  /** The confusion-matrix entries of the first `n` models. */
  function MatrixEntries(models: Dict<Model>, n: nat): (r: Dict<seq<seq<int>>>)
    requires n <= |models|
    ensures |r| == n && forall i :: 0 <= i < n ==> r[i] == (models[i].0, models[i].1.confusion)
  {
    if n == 0 then [] else MatrixEntries(models, n - 1) + [(models[n - 1].0, models[n - 1].1.confusion)]
  }

  /** The classification-report entries of the first `n` models. */
  function ReportEntries(models: Dict<Model>, n: nat): (r: Dict<Value>)
    requires n <= |models|
    ensures |r| == n && forall i :: 0 <= i < n ==> r[i] == (models[i].0, models[i].1.report)
  {
    if n == 0 then [] else ReportEntries(models, n - 1) + [(models[n - 1].0, models[n - 1].1.report)]
  }

  class ModelEvaluator {
    var metrics: Dict<Metrics>
    var confusionMatrices: Dict<seq<seq<int>>>
    var classificationReports: Dict<Value>

    constructor ()
      ensures metrics == [] && confusionMatrices == [] && classificationReports == []
    {
      metrics := [];
      confusionMatrices := [];
      classificationReports := [];
    }

    /**
     * `evaluate_model`: the confusion matrix is stored before it is unpacked, so a
     * matrix that does not unpack still leaves its entry behind.
     */
    method EvaluateModel(model: Model, name: string) returns (r: Result<Metrics, string>)
      modifies this
      ensures r == MetricsOf(model)
      ensures confusionMatrices == Put(old(confusionMatrices), name, model.confusion)
      ensures r.Ok? ==> metrics == Put(old(metrics), name, r.value)
      ensures r.Ok? ==> classificationReports == Put(old(classificationReports), name, model.report)
      ensures r.Err? ==> metrics == old(metrics) && classificationReports == old(classificationReports)
    {
      confusionMatrices := Put(confusionMatrices, name, model.confusion);
      var counts := Unpack(model.confusion);
      if counts.Err? {
        return Err(counts.error);
      }
      var c := counts.value;
      var s := model.scores;
      var m := Metrics(s.accuracy, s.precision, s.recall, s.f1Score, s.rocAuc, c.tp, c.tn, c.fp, c.fn);
      classificationReports := Put(classificationReports, name, model.report);
      metrics := Put(metrics, name, m);
      r := Ok(m);
    }

    /**
     * `evaluate_all_models`: the result has exactly the models' names, in order, and
     * every one of them is recorded in the evaluator, later names winning. When a
     * model raises, the models before it stay recorded, and so does its own
     * confusion matrix, which `evaluate_model` stores before unpacking it.
     */
    method EvaluateAllModels(models: Dict<Model>) returns (r: Result<Dict<Metrics>, string>)
      requires Distinct(Keys(models))
      modifies this
      ensures r == AllMetrics(models)
      ensures r.Ok? ==> metrics == Update(old(metrics), r.value)
      ensures r.Err? <==> Evaluable(models) < |models|
      ensures metrics == Update(old(metrics), MetricEntries(models, Evaluable(models)))
      ensures classificationReports == Update(old(classificationReports), ReportEntries(models, Evaluable(models)))
      ensures confusionMatrices ==
        Update(old(confusionMatrices), MatrixEntries(models, Ranking.Min(Evaluable(models) + 1, |models|)))
    {
      AllMetricsEntries(models);
      var all: Dict<Metrics> := [];
      for i := 0 to |models|
        invariant i <= Evaluable(models)
        invariant all == MetricEntries(models, i)
        invariant metrics == Update(old(metrics), MetricEntries(models, i))
        invariant classificationReports == Update(old(classificationReports), ReportEntries(models, i))
        invariant confusionMatrices == Update(old(confusionMatrices), MatrixEntries(models, i))
      {
        var m := EvaluateNext(models, i, old(metrics), old(classificationReports), old(confusionMatrices));
        if m.Err? {
          assert Ranking.Min(i + 1, |models|) == i + 1;
          return Err(m.error);
        }
        all := all + [(models[i].0, m.value)];
      }
      assert Evaluable(models) == |models| && Ranking.Min(|models| + 1, |models|) == |models|;
      r := Ok(all);
    }

    /**
     * One turn of the loop in `evaluate_all_models`: the next model is evaluated and
     * recorded on top of the entries of the models before it, which all evaluate.
     */
    method EvaluateNext(models: Dict<Model>, i: nat, ghost m0: Dict<Metrics>, ghost r0: Dict<Value>,
                        ghost c0: Dict<seq<seq<int>>>) returns (m: Result<Metrics, string>)
      requires i < |models| && i <= Evaluable(models)
      requires metrics == Update(m0, MetricEntries(models, i))
      requires classificationReports == Update(r0, ReportEntries(models, i))
      requires confusionMatrices == Update(c0, MatrixEntries(models, i))
      modifies this
      ensures m == MetricsOf(models[i].1)
      ensures confusionMatrices == Update(c0, MatrixEntries(models, i + 1))
      ensures m.Err? ==> Evaluable(models) == i
      ensures m.Err? ==> metrics == old(metrics) && classificationReports == old(classificationReports)
      ensures m.Ok? ==> i + 1 <= Evaluable(models)
      ensures m.Ok? ==> MetricEntries(models, i + 1) == MetricEntries(models, i) + [(models[i].0, m.value)]
      ensures m.Ok? ==> metrics == Update(m0, MetricEntries(models, i + 1))
      ensures m.Ok? ==> classificationReports == Update(r0, ReportEntries(models, i + 1))
    {
      var name, model := models[i].0, models[i].1;
      m := EvaluateModel(model, name);
      EntriesStep(models, i, c0, confusionMatrices);
      if m.Ok? {
        assert forall j :: 0 <= j <= i ==> MetricsOf(models[j].1).Ok?;
        EvaluableAtLeast(models, i + 1);
        UpdateAppend(m0, MetricEntries(models, i), name, m.value);
        ReportsStep(models, i, r0, classificationReports);
      }
    }

    /** `get_best_model`, by default on roc_auc. */
    function GetBestModel(metric: string): (r: Result<(string, real), string>)
      reads this
      ensures r == BestModel(metrics, metric)
      ensures metrics == [] ==> r.Err?
      ensures metric !in MetricNames ==> r.Err?
      ensures r.Ok? ==> forall i :: 0 <= i < |metrics| ==> MetricValue(metrics[i].1, metric).value <= r.value.1
    {
      BestModel(metrics, metric)
    }

    /** `get_confusion_matrix`: an unknown name gives the empty array. */
    function GetConfusionMatrix(name: string): (r: seq<seq<int>>)
      reads this
      ensures name !in Keys(confusionMatrices) ==> r == []
      ensures name in Keys(confusionMatrices) ==> Some(r) == Get(confusionMatrices, name)
    {
      Get(confusionMatrices, name).GetOr([])
    }

    /** `get_classification_report`: an unknown name gives the empty dictionary. */
    function GetClassificationReport(name: string): (r: Value)
      reads this
      ensures name !in Keys(classificationReports) ==> r == Object([])
      ensures name in Keys(classificationReports) ==> Some(r) == Get(classificationReports, name)
    {
      Get(classificationReports, name).GetOr(Object([]))
    }

    /** `generate_comparison_table`, built by a loop over the recorded metrics. */
    method GenerateComparisonTable() returns (r: Dict<Dict<real>>)
      requires Distinct(Keys(metrics))
      ensures r == Comparison(metrics)
    {
      r := [];
      for i := 0 to |metrics|
        invariant r == Comparison(metrics[..i])
      {
        assert metrics[..i + 1][..i] == metrics[..i];
        assert metrics[i].0 !in Keys(r) by {
          forall j | 0 <= j < i
            ensures r[j].0 != metrics[i].0
          {
            assert Keys(metrics)[j] != Keys(metrics)[i];
          }
        }
        PutNew(r, metrics[i].0, ComparisonRow(metrics[i].1));
        r := Put(r, metrics[i].0, ComparisonRow(metrics[i].1));
      }
      assert metrics[..|metrics|] == metrics;
    }
  }

  /** `AllMetrics` is the entries of every model when all of them evaluate, else the first error. */
  lemma AllMetricsEntries(models: Dict<Model>)
    ensures Evaluable(models) == |models| ==> AllMetrics(models) == Ok(MetricEntries(models, |models|))
    ensures Evaluable(models) < |models| ==> AllMetrics(models) == Err(MetricsOf(models[Evaluable(models)].1).error)
  {
    if Evaluable(models) < |models| {
      AllMetricsStopsAt(models, Evaluable(models));
    } else {
      AllMetricsAll(models);
    }
  }

  lemma {:induction false} AllMetricsStopsAt(models: Dict<Model>, f: nat)
    requires f < |models| && MetricsOf(models[f].1).Err?
    requires forall i :: 0 <= i < f ==> MetricsOf(models[i].1).Ok?
    ensures AllMetrics(models) == Err(MetricsOf(models[f].1).error)
  {
    var prefix := models[..f];
    assert forall i :: 0 <= i < |prefix| ==> MetricsOf(prefix[i].1).Ok? by {
      forall i | 0 <= i < |prefix|
        ensures MetricsOf(prefix[i].1).Ok?
      {
        assert prefix[i] == models[i];
      }
    }
    AllMetricsFirstErr(models, f);
  }

  lemma {:induction false} AllMetricsAll(models: Dict<Model>)
    requires forall i :: 0 <= i < |models| ==> MetricsOf(models[i].1).Ok?
    ensures AllMetrics(models) == Ok(MetricEntries(models, |models|))
  {
    var r := AllMetrics(models).value;
    var e := MetricEntries(models, |models|);
    assert |r| == |Keys(r)| == |Keys(models)| == |e|;
    forall i | 0 <= i < |models|
      ensures r[i] == e[i]
    {
      assert Keys(r)[i] == Keys(models)[i];
    }
    assert r == e;
  }

  /** Models that all evaluate lie inside the evaluated prefix. */
  lemma {:induction false} EvaluableAtLeast(models: Dict<Model>, n: nat)
    requires n <= |models| && forall j :: 0 <= j < n ==> MetricsOf(models[j].1).Ok?
    ensures n <= Evaluable(models)
  {
    if n > 0 {
      assert forall j :: 0 <= j < n - 1 ==> models[1..][j] == models[j + 1];
      EvaluableAtLeast(models[1..], n - 1);
    }
  }

  /** Storing one more model's matrix extends the stored entries by one. */
  lemma EntriesStep(models: Dict<Model>, i: nat, d0: Dict<seq<seq<int>>>, d: Dict<seq<seq<int>>>)
    requires i < |models|
    requires d == Put(Update(d0, MatrixEntries(models, i)), models[i].0, models[i].1.confusion)
    ensures d == Update(d0, MatrixEntries(models, i + 1))
  {
    UpdateAppend(d0, MatrixEntries(models, i), models[i].0, models[i].1.confusion);
  }

  /** Storing one more model's report extends the stored entries by one. */
  lemma ReportsStep(models: Dict<Model>, i: nat, d0: Dict<Value>, d: Dict<Value>)
    requires i < |models|
    requires d == Put(Update(d0, ReportEntries(models, i)), models[i].0, models[i].1.report)
    ensures d == Update(d0, ReportEntries(models, i + 1))
  {
    UpdateAppend(d0, ReportEntries(models, i), models[i].0, models[i].1.report);
  }

  /** The first model that fails to evaluate decides the error, whatever follows it. */
  lemma {:induction false} AllMetricsFirstErr(models: Dict<Model>, i: nat)
    requires i < |models| && AllMetrics(models[..i]).Ok? && MetricsOf(models[i].1).Err?
    ensures AllMetrics(models) == Err(MetricsOf(models[i].1).error)
    decreases |models|
  {
    var init := models[..|models| - 1];
    if |models| == i + 1 {
      assert init == models[..i];
    } else {
      assert init[..i] == models[..i];
      AllMetricsFirstErr(init, i);
    }
  }

  /** One more model evaluated extends the prefix's metrics by its entry, a fresh key. */
  lemma AllMetricsStep(models: Dict<Model>, i: nat, all: Dict<Metrics>, m: Metrics)
    requires Distinct(Keys(models)) && i < |models|
    requires AllMetrics(models[..i]) == Ok(all) && MetricsOf(models[i].1) == Ok(m)
    ensures AllMetrics(models[..i + 1]) == Ok(all + [(models[i].0, m)])
    ensures Put(all, models[i].0, m) == all + [(models[i].0, m)]
  {
    assert models[..i + 1][..i] == models[..i];
    assert models[i].0 !in Keys(all) by {
      assert Keys(all) == Keys(models[..i]);
      forall j | 0 <= j < i
        ensures models[j].0 != models[i].0
      {
        assert Keys(models)[j] != Keys(models)[i];
      }
    }
    PutNew(all, models[i].0, m);
  }

  /** Updating with one more entry is putting that entry. */
  lemma UpdateAppend<V>(d: Dict<V>, e: Dict<V>, k: string, v: V)
    ensures Update(d, e + [(k, v)]) == Put(Update(d, e), k, v)
    decreases |e|
  {
    if e != [] {
      assert (e + [(k, v)])[1..] == e[1..] + [(k, v)];
      UpdateAppend(Put(d, e[0].0, e[0].1), e[1..], k, v);
    }
  }
}
