/**
 * The explainability endpoints: the stored explanation of a customer's latest
 * prediction, what-if analysis that scores the stored features again with some of
 * them changed, and the stored recommendations with the top risk factors.
 */
module ExplainRoutes {
  import opened Wrappers
  import opened Values
  import opened Ranking
  import opened Numbers
  import opened Frames
  import opened Records
  import opened Inference
  import CustomerRoutes
  import PredictRoutes
  import DataProcessing
  import Explanations

  const ModelsUnavailable := ApiError(503, "Models not available")

  function NoPrediction(id: string): ApiError { ApiError(404, "No prediction found for customer " + id) }

  // ------------------------------------------------ the latest prediction

  /** `filter(customer_id == id).order_by(prediction_date.desc()).first()`. */
  function LatestPrediction(preds: seq<Prediction>, id: string): Option<Prediction> {
    var newest := CustomerRoutes.NewestFirst(preds, id);
    if newest == [] then None else Some(newest[0])
  }

  /**
   * There is no latest prediction exactly when the customer has none; otherwise it is
   * one of the customer's stored predictions, and none of theirs is newer.
   */
  lemma LatestPredictionSpec(preds: seq<Prediction>, id: string)
    ensures LatestPrediction(preds, id).None? <==> forall p :: p in preds ==> p.customerId != id
    ensures LatestPrediction(preds, id).Some? ==>
      var p := LatestPrediction(preds, id).value;
      && p in preds && p.customerId == id
      && forall q :: q in preds && q.customerId == id ==> PredictionKey(q) <= PredictionKey(p)
  {
    var own := Filter(preds, (p: Prediction) => p.customerId == id);
    var newest := CustomerRoutes.NewestFirst(preds, id);
    CustomerRoutes.NewestFirstTop(preds, id, 1);
    if newest == [] {
      forall p | p in preds
        ensures p.customerId != id
      {
        var i :| 0 <= i < |preds| && preds[i] == p;
        assert |own| == 0;
      }
    } else {
      assert SliceTo(newest, 1) == [newest[0]];
    }
  }

  // ------------------------------------------------- GET /explain/{id}

  /** The stored explanation of one prediction, as the route returns it. */
  function StoredExplanation(p: Prediction, id: string): Dict<Value> {
    [("customer_id", Str(id)), ("churn_probability", Num(p.churnProbability)),
     ("risk_level", OptText(p.riskLevel)), ("top_features", p.topFeatures),
     ("recommendations", p.recommendations), ("shap_values", p.shapValues),
     ("prediction_date", IsoOrNone(p.predictionDate))]
  }

  /** `GET /explain/{customer_id}` once the models are available. */
  function Explain(preds: seq<Prediction>, id: string): Result<Dict<Value>, ApiError> {
    match LatestPrediction(preds, id)
    case None => Err(NoPrediction(id))
    case Some(p) => Ok(StoredExplanation(p, id))
  }

  /** The projection reads back the stored probability, explanation and `shap_values`. */
  lemma StoredExplanationFields(p: Prediction, id: string)
    ensures var d := StoredExplanation(p, id);
      && Get(d, "customer_id") == Some(Str(id))
      && Get(d, "churn_probability") == Some(Num(p.churnProbability))
      && Get(d, "top_features") == Some(p.topFeatures)
      && Get(d, "shap_values") == Some(p.shapValues)
  {
    var d := StoredExplanation(p, id);
    assert d[0].0[1] == 'u' && d[1].0[1] == 'h' && d[2].0[0] == 'r' && d[3].0[0] == 't' && d[4].0[0] == 'r';
    GetAt(d, 0);
    GetAt(d, 1);
    GetAt(d, 3);
    GetAt(d, 5);
  }

  /**
   * The explanation is that of the customer's latest prediction: 404 when there is
   * none; otherwise its probability and stored explanation, and `shap_values` None
   * whenever every stored row leaves that column empty, as every insertion does.
   */
  lemma ExplainLatest(preds: seq<Prediction>, id: string)
    ensures Explain(preds, id).Err? <==> forall p :: p in preds ==> p.customerId != id
    ensures Explain(preds, id).Err? ==> Explain(preds, id).error == NoPrediction(id)
    ensures Explain(preds, id).Ok? ==>
      var p := LatestPrediction(preds, id).value; var d := Explain(preds, id).value;
      && p in preds && p.customerId == id
      && Get(d, "churn_probability") == Some(Num(p.churnProbability))
      && Get(d, "top_features") == Some(p.topFeatures)
      && ((forall q :: q in preds ==> q.shapValues == Null) ==> Get(d, "shap_values") == Some(Null))
  {
    LatestPredictionSpec(preds, id);
    var latest := LatestPrediction(preds, id);
    if latest.Some? {
      StoredExplanationFields(latest.value, id);
    }
  }

  /** `GET /explain/{customer_id}`: 503 when the models cannot be loaded. */
  method ExplainPrediction(state: PredictRoutes.ModelState, db: Database, files: PredictRoutes.ModelFiles, id: string)
    returns (r: Result<Dict<Value>, ApiError>)
    requires state.Valid()
    modifies state
    ensures state.Valid()
    ensures r == if old(state.predictor) != null || PredictRoutes.LoadsCleanly(files)
                 then Explain(db.predictions, id) else Err(ModelsUnavailable)
  {
    var loaded := state.LoadModels(files);
    if !loaded {
      return Err(ModelsUnavailable);
    }
    r := Explain(db.predictions, id);
  }

  // ------------------------------------------------ POST /explain/what-if

  datatype WhatIfRequest = WhatIfRequest(customerId: string, changes: Dict<Value>)

  /** What `copy()` or `update()` raises on stored features that are not an object. */
  function NotADict(v: Value): string {
    match v
    case Null => "'NoneType' object has no attribute 'copy'"
    case Bool(_) => "'bool' object has no attribute 'copy'"
    case Num(_) => "'float' object has no attribute 'copy'"
    case Str(_) => "'str' object has no attribute 'copy'"
    case List(_) => "'list' object has no attribute 'update'"
    case Object(_) => "'dict' object has no attribute 'copy'"
  }

  /** `original_features.copy()` then `.update(changes)`; the stored value itself is untouched. */
  function Modified(features: Value, changes: Dict<Value>): Result<Dict<Value>, string> {
    if features.Object? then Ok(Update(features.fields, changes)) else Err(NotADict(features))
  }

  /** The one-row frame scored: the request's id, then each field's `.get(key, default)`. */
  function WhatIfFrame(modified: Dict<Value>, id: string): Frame {
    PredictRoutes.RequestFrame(modified, Str(id))
  }

  datatype Impact = Impact(probabilityChange: real, riskLevelChange: bool, improvement: bool)

  datatype WhatIfResponse = WhatIfResponse(
    customerId: string,
    originalProbability: real, originalRisk: Option<string>,
    modifiedProbability: real, modifiedRisk: string,
    changesApplied: Dict<Value>, impact: Impact)

  /** The impact fields of the answer. */
  function ImpactOf(original: Prediction, o: Outcome): Impact {
    var change := o.churnProbability - original.churnProbability;
    Impact(Round4(change), original.riskLevel != Some(o.riskLevel), change < 0.0)
  }

  function Answer(req: WhatIfRequest, original: Prediction, o: Outcome): WhatIfResponse {
    WhatIfResponse(req.customerId, original.churnProbability, original.riskLevel,
                   o.churnProbability, o.riskLevel, req.changes, ImpactOf(original, o))
  }

  /** The latest stored prediction and its features with the changes applied. */
  function Original(preds: seq<Prediction>, req: WhatIfRequest): Result<(Prediction, Dict<Value>), ApiError> {
    match LatestPrediction(preds, req.customerId)
    case None => Err(NoPrediction(req.customerId))
    case Some(original) =>
      match Modified(original.features, req.changes)
      case Err(e) => Err(ApiError(500, e))
      case Ok(modified) => Ok((original, modified))
  }

  /** The answer once the modified frame is scored, or the 500 scoring raised. */
  function Rescored(req: WhatIfRequest, original: Prediction, scored: Result<PredictRoutes.Scored, string>)
    : Result<WhatIfResponse, ApiError>
  {
    match scored
    case Err(e) => Err(ApiError(500, e))
    case Ok(s) => Ok(Answer(req, original, s.outcome))
  }

  /** `POST /explain/what-if` once the models are loaded; any failure after the lookup is a 500. */
  function WhatIf(l: PredictRoutes.Loaded, preds: seq<Prediction>, req: WhatIfRequest,
                  oneHot: DataProcessing.OneHot): Result<WhatIfResponse, ApiError>
  {
    match Original(preds, req)
    case Err(e) => Err(e)
    case Ok(found) =>
      Rescored(req, found.0, PredictRoutes.ScoreOne(l, WhatIfFrame(found.1, req.customerId), oneHot))
  }

  /**
   * `POST /explain/what-if`: 503 when the models cannot be loaded; otherwise the latest
   * stored features are copied, updated with the changes and scored. The database is
   * only read: the stored prediction and its features stay as they were.
   */
  method WhatIfAnalysis(state: PredictRoutes.ModelState, db: Database, req: WhatIfRequest,
                        files: PredictRoutes.ModelFiles, oneHot: DataProcessing.OneHot)
    returns (r: Result<WhatIfResponse, ApiError>)
    requires state.Valid()
    modifies state, state.processor
    ensures state.Valid()
    ensures old(state.predictor) == null && !PredictRoutes.LoadsCleanly(files) ==> r == Err(ModelsUnavailable)
    ensures old(state.predictor) != null || PredictRoutes.LoadsCleanly(files) ==>
      state.predictor != null && r == WhatIf(state.Snapshot(), db.predictions, req, oneHot)
  {
    var loaded := state.LoadModels(files);
    if !loaded {
      return Err(ModelsUnavailable);
    }
    r := WhatIfLoaded(state, db, req, oneHot);
  }

  /** The body of `POST /what-if` once the models are loaded. */
  method WhatIfLoaded(state: PredictRoutes.ModelState, db: Database, req: WhatIfRequest,
                      oneHot: DataProcessing.OneHot)
    returns (r: Result<WhatIfResponse, ApiError>)
    requires state.Valid() && state.predictor != null
    modifies state.processor
    ensures r == WhatIf(state.Snapshot(), db.predictions, req, oneHot)
  {
    var latest := LatestPrediction(db.predictions, req.customerId);
    if latest.None? {
      return Err(NoPrediction(req.customerId));
    }
    var original := latest.value;
    if !original.features.Object? {
      return Err(ApiError(500, NotADict(original.features)));
    }
    var modified := original.features.fields;
    modified := Update(modified, req.changes);
    var scored := state.Score(WhatIfFrame(modified, req.customerId), oneHot);
    if scored.Err? {
      return Err(ApiError(500, scored.error));
    }
    r := Ok(Answer(req, original, scored.value.outcome));
  }

  /**
   * The frame scored for a what-if: the request's id, and in each field's column the
   * changed value when `changes` has the key, else the stored one, else the default.
   */
  lemma WhatIfFrameCells(features: Dict<Value>, changes: Dict<Value>, id: string)
    requires Distinct(Keys(changes))
    ensures var f := WhatIfFrame(Update(features, changes), id);
      && WellFormed(f) && |f.rows| == 1
      && Cell(f.rows[0], "customerID") == Str(id)
      && forall j :: 0 <= j < |PredictRoutes.Fields| ==>
           var field := PredictRoutes.Fields[j];
           Cell(f.rows[0], field.column) ==
             if field.key in Keys(changes) then Get(changes, field.key).value
             else Get(features, field.key).GetOr(field.default)
  {
    var merged := Update(features, changes);
    PredictRoutes.RequestFrameCells(merged, Str(id));
    forall j | 0 <= j < |PredictRoutes.Fields|
      ensures Get(merged, PredictRoutes.Fields[j].key) ==
        if PredictRoutes.Fields[j].key in Keys(changes) then Get(changes, PredictRoutes.Fields[j].key)
        else Get(features, PredictRoutes.Fields[j].key)
    {
      UpdateGet(features, changes, PredictRoutes.Fields[j].key);
    }
  }

  /** A field whose key the dictionary lacks gets the field's default in its column. */
  lemma DefaultCell(merged: Dict<Value>, id: string, j: nat)
    requires j < |PredictRoutes.Fields| && PredictRoutes.Fields[j].key !in Keys(merged)
    ensures Cell(WhatIfFrame(merged, id).rows[0], PredictRoutes.Fields[j].column) == PredictRoutes.Fields[j].default
  {
    PredictRoutes.RequestFrameCells(merged, Str(id));
  }

  /**
   * A key neither stored nor changed falls back on its default: `senior_citizen` 0,
   * `phone_service` and `paperless_billing` "Yes".
   */
  lemma WhatIfDefaults(merged: Dict<Value>, id: string)
    ensures var row := WhatIfFrame(merged, id).rows[0];
      && ("senior_citizen" !in Keys(merged) ==> Cell(row, "SeniorCitizen") == Num(0.0))
      && ("phone_service" !in Keys(merged) ==> Cell(row, "PhoneService") == Str("Yes"))
      && ("paperless_billing" !in Keys(merged) ==> Cell(row, "PaperlessBilling") == Str("Yes"))
  {
    var ks := Keys(merged);
    if "senior_citizen" !in ks { DefaultCell(merged, id, 1); }
    if "phone_service" !in ks { DefaultCell(merged, id, 5); }
    if "paperless_billing" !in ks { DefaultCell(merged, id, 15); }
  }

  /** The service keys the default dict fills in fall back on "No". */
  lemma WhatIfServiceDefaults(merged: Dict<Value>, id: string)
    ensures var row := WhatIfFrame(merged, id).rows[0];
      && ("multiple_lines" !in Keys(merged) ==> Cell(row, "MultipleLines") == Str("No"))
      && ("online_security" !in Keys(merged) ==> Cell(row, "OnlineSecurity") == Str("No"))
      && ("tech_support" !in Keys(merged) ==> Cell(row, "TechSupport") == Str("No"))
      && ("streaming_movies" !in Keys(merged) ==> Cell(row, "StreamingMovies") == Str("No"))
  {
    var ks := Keys(merged);
    if "multiple_lines" !in ks { DefaultCell(merged, id, 6); }
    if "online_security" !in ks { DefaultCell(merged, id, 8); }
    if "tech_support" !in ks { DefaultCell(merged, id, 11); }
    if "streaming_movies" !in ks { DefaultCell(merged, id, 13); }
  }

  /**
   * The impact flags: an improvement is exactly a lower probability, a level change
   * exactly a stored level unlike the new one; for levels the predictor assigned, an
   * improvement never moves the customer to a higher risk bucket.
   */
  lemma ImpactMeaning(original: Prediction, o: Outcome)
    ensures ImpactOf(original, o).improvement <==> o.churnProbability < original.churnProbability
    ensures ImpactOf(original, o).riskLevelChange <==> original.riskLevel != Some(o.riskLevel)
    ensures -0.00005 <= ImpactOf(original, o).probabilityChange - (o.churnProbability - original.churnProbability) <= 0.00005
    ensures original.riskLevel == Some(RiskLevel(original.churnProbability)) &&
            o.riskLevel == RiskLevel(o.churnProbability) && ImpactOf(original, o).improvement ==>
              RiskRank(o.riskLevel) <= RiskRank(original.riskLevel.value)
  {
    if o.churnProbability < original.churnProbability {
      RiskLevelMonotone(o.churnProbability, original.churnProbability);
    }
  }

  /**
   * The answer of a what-if reports the latest stored prediction as the original and
   * the changes as given: 404 without a stored prediction, 500 when its features are
   * not an object.
   */
  lemma WhatIfOutcome(l: PredictRoutes.Loaded, preds: seq<Prediction>, req: WhatIfRequest,
                      oneHot: DataProcessing.OneHot)
    ensures var r := WhatIf(l, preds, req, oneHot);
      && ((forall p :: p in preds ==> p.customerId != req.customerId) <==> r == Err(NoPrediction(req.customerId)))
      && (LatestPrediction(preds, req.customerId).Some? && !LatestPrediction(preds, req.customerId).value.features.Object? ==>
            r.Err? && r.error.status == 500)
      && (r.Ok? ==>
            var original := LatestPrediction(preds, req.customerId).value;
            && r.value.originalProbability == original.churnProbability
            && r.value.originalRisk == original.riskLevel
            && r.value.changesApplied == req.changes
            && r.value.customerId == req.customerId)
  {
    LatestPredictionSpec(preds, req.customerId);
  }

  /** Updating with no changes keeps the dictionary. */
  lemma UpdateNothing(d: Dict<Value>)
    ensures Update(d, []) == d
  {
  }

  /**
   * A row appended with a date later than every earlier row of the customer's is the
   * customer's latest prediction.
   */
  lemma NewestAppended(table: seq<Prediction>, stored: Prediction, id: string)
    requires stored.customerId == id
    requires forall p :: p in table && p.customerId == id ==> PredictionKey(p) < PredictionKey(stored)
    ensures LatestPrediction(table + [stored], id) == Some(stored)
  {
    var t := table + [stored];
    LatestPredictionSpec(t, id);
    assert stored in t;
    var latest := LatestPrediction(t, id).value;
    assert PredictionKey(stored) <= PredictionKey(latest);
    assert latest !in table;
  }

  /**
   * When the latest prediction stored its features as an object, a what-if without
   * changes scores the frame of exactly those features.
   */
  lemma OriginalUnchanged(preds: seq<Prediction>, id: string, input: Dict<Value>)
    requires LatestPrediction(preds, id).Some? && LatestPrediction(preds, id).value.features == Object(input)
    ensures Original(preds, WhatIfRequest(id, [])) == Ok((LatestPrediction(preds, id).value, input))
  {
    UpdateNothing(input);
  }

  /** Scoring gives back the stored probability and level: no change, no improvement, same level. */
  lemma RescoreUnchanged(req: WhatIfRequest, original: Prediction, s: PredictRoutes.Scored)
    requires original.churnProbability == s.outcome.churnProbability
    requires original.riskLevel == Some(s.outcome.riskLevel)
    ensures var w := Rescored(req, original, Ok(s));
      && w.Ok?
      && w.value.modifiedProbability == w.value.originalProbability
      && w.value.impact == Impact(0.0, false, false)
  {
    NearestEvenInteger(0);
  }

  /**
   * Re-scoring a stored request without changes reproduces its prediction: when a
   * prediction made with the loaded models is the customer's newest, a what-if with
   * no changes scores the same frame and reports no change, no improvement and the
   * same risk level.
   */
  lemma WhatIfWithoutChanges(l: PredictRoutes.Loaded, q: PredictRoutes.PredictionRequest,
                             env: PredictRoutes.Env, table: seq<Prediction>, id: string)
    requires PredictRoutes.Serve(l, q, env, table, PredictRoutes.CustomerIdAsWritten).response.Ok?
    requires PredictRoutes.Serve(l, q, env, table, PredictRoutes.CustomerIdAsWritten).response.value.customerId == id
    requires forall p :: p in table && p.customerId == id ==> PredictionKey(p) < env.now.ticks as real
    ensures var s := PredictRoutes.Serve(l, q, env, table, PredictRoutes.CustomerIdAsWritten);
      var w := WhatIf(l, s.table, WhatIfRequest(id, []), env.oneHot);
      && w.Ok?
      && w.value.modifiedProbability == w.value.originalProbability
      && w.value.impact == Impact(0.0, false, false)
  {
    var s := PredictRoutes.Serve(l, q, env, table, PredictRoutes.CustomerIdAsWritten);
    var input := PredictRoutes.RequestDict(PredictRoutes.WithTotal(q));
    var idv := PredictRoutes.CustomerIdAsWritten(PredictRoutes.RequestDict(q), env.stamp);
    var frame := PredictRoutes.FrameFor(q, env, PredictRoutes.CustomerIdAsWritten);
    var scored := PredictRoutes.ScoreOne(l, frame, env.oneHot);
    PredictRoutes.RespondStores(scored, l.explainer, input, idv, env.now, env.answeredAt, table);
    var stored := s.table[|table|];
    assert s.table == table + [stored];
    NewestAppended(table, stored, id);
    OriginalUnchanged(s.table, id, input);
    assert frame == WhatIfFrame(input, id);
    RescoreUnchanged(WhatIfRequest(id, []), stored, scored.value);
  }

  // --------------------------------------- GET /explain/recommendations/{id}

  /** `top_features[:3] if top_features else []`: slicing anything but a list or text raises. */
  function TopRiskFactors(v: Value): Result<Value, string> {
    if !Truthy(v) then Ok(List([]))
    else
      match v
      case List(items) => Ok(List(SliceTo(items, 3)))
      case Str(s) => Ok(Str(SliceTo(s, 3)))
      case _ => Err(NotSliceable(v))
  }

  /**
   * What `[:3]` raises on a truthy value that is neither a list nor a text: a number or
   * `True` is not subscriptable, and a dict looks the slice up as a key (CPython 3.12).
   */
  function NotSliceable(v: Value): string {
    match v
    case Bool(_) => "'bool' object is not subscriptable"
    case Object(_) => "slice(None, 3, None)"
    case _ => "'float' object is not subscriptable"
  }

  /**
   * For the top features the prediction route stores, the risk factors are the first
   * three of them (all of them when there are fewer); an empty column gives [].
   */
  lemma TopRiskFactorsOfStored(fs: seq<Explanations.FeatureImpact>)
    ensures TopRiskFactors(PredictRoutes.ImpactsValue(fs)) == Ok(PredictRoutes.ImpactsValue(SliceTo(fs, 3)))
    ensures TopRiskFactors(Null) == Ok(List([]))
  {
    var all := PredictRoutes.ImpactsValue(fs).items;
    assert SliceTo(all, 3) == PredictRoutes.ImpactsValue(SliceTo(fs, 3)).items;
  }

  datatype RecommendationsResponse = RecommendationsResponse(
    customerId: string, riskLevel: Option<string>, churnProbability: real,
    recommendations: Value, topRiskFactors: Value)

  /** `GET /explain/recommendations/{customer_id}`: read from the stored prediction, no model needed. */
  function GetRecommendations(preds: seq<Prediction>, id: string): Result<RecommendationsResponse, ApiError> {
    match LatestPrediction(preds, id)
    case None => Err(NoPrediction(id))
    case Some(p) =>
      match TopRiskFactors(p.topFeatures)
      case Err(e) => Err(ApiError(500, e))
      case Ok(top) => Ok(RecommendationsResponse(id, p.riskLevel, p.churnProbability, p.recommendations, top))
  }

  /**
   * The recommendations are those stored with the customer's latest prediction, and
   * its top risk factors are at most three; 404 exactly when there is no prediction.
   */
  lemma RecommendationsLatest(preds: seq<Prediction>, id: string)
    ensures GetRecommendations(preds, id) == Err(NoPrediction(id)) <==>
      forall p :: p in preds ==> p.customerId != id
    ensures GetRecommendations(preds, id).Ok? ==>
      var p := LatestPrediction(preds, id).value; var r := GetRecommendations(preds, id).value;
      && p in preds && p.customerId == id
      && r.recommendations == p.recommendations && r.riskLevel == p.riskLevel
      && r.churnProbability == p.churnProbability
      && (r.topRiskFactors.List? ==> |r.topRiskFactors.items| <= 3)
  {
    LatestPredictionSpec(preds, id);
  }
}
