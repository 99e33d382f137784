/**
 * The prediction endpoints: the request body and its declared bounds, the request
 * turned into the one-row frame the pipeline expects, the models loaded once into
 * module state, single and batch scoring with the rows they store, and the
 * recent-predictions listing.
 */
module PredictRoutes {
  import opened Wrappers
  import opened Values
  import opened Strings
  import opened Ranking
  import opened Numbers
  import opened Frames
  import opened Records
  import opened Estimators
  import opened Inference
  import opened Explanations
  import FeatureEngineering
  import DataProcessing

  /** `settings.MODEL_VERSION` at its default. */
  const ModelVersion := "1.0.0"

  const ModelsUnavailable := ApiError(503, "Models not available. Please train models first.")

  function PredictionFailed(e: string): ApiError { ApiError(500, "Prediction failed: " + e) }

  function BatchFailed(e: string): ApiError { ApiError(500, "Batch prediction failed: " + e) }

  /** A server error whose detail starts with `prefix`. */
  predicate FailedWith(err: ApiError, prefix: string) {
    err.status == 500 && StartsWith(err.detail, prefix)
  }

  lemma FailedPrefix(prefix: string, e: string)
    ensures FailedWith(ApiError(500, prefix + e), prefix)
  {
    StartsWithPrefix(prefix + e, prefix);
    assert (prefix + e)[..|prefix|] == prefix;
  }

  // ------------------------------------------------------------ the request body

  /** One key of the JSON body: left out, sent as `null`, or sent with a value. */
  datatype BodyField<T> = Omitted | SentNull | Sent(v: T)

  /** The value of a field the body carries one for. */
  function SentValue<T>(f: BodyField<T>): (r: Option<T>)
    ensures r.Some? <==> f.Sent?
  {
    if f.Sent? then Some(f.v) else None
  }

  /** The value sent, or the declared default `d` where the field was left out or is null. */
  function Or<T>(f: BodyField<T>, d: T): (r: T)
    ensures f.Sent? ==> r == f.v
    ensures !f.Sent? ==> r == d
  {
    if f.Sent? then f.v else d
  }

  /** The JSON body as parsed, each key in one of its three states. */
  datatype RequestBody = RequestBody(
    customerId: BodyField<string>, gender: BodyField<string>, seniorCitizen: BodyField<int>,
    partner: BodyField<string>, dependents: BodyField<string>, tenure: BodyField<int>,
    phoneService: BodyField<string>, multipleLines: BodyField<string>, internetService: BodyField<string>,
    onlineSecurity: BodyField<string>, onlineBackup: BodyField<string>, deviceProtection: BodyField<string>,
    techSupport: BodyField<string>, streamingTv: BodyField<string>, streamingMovies: BodyField<string>,
    contract: BodyField<string>, paperlessBilling: BodyField<string>, paymentMethod: BodyField<string>,
    monthlyCharges: BodyField<real>, totalCharges: BodyField<real>)

  /** `PredictionRequest` once validated: every field with a value. */
  datatype PredictionRequest = PredictionRequest(
    customerId: Option<string>, gender: string, seniorCitizen: int,
    partner: string, dependents: string, tenure: int,
    phoneService: string, multipleLines: string, internetService: string,
    onlineSecurity: string, onlineBackup: string, deviceProtection: string,
    techSupport: string, streamingTv: string, streamingMovies: string,
    contract: string, paperlessBilling: string, paymentMethod: string,
    monthlyCharges: real, totalCharges: Option<real>)

  /** The declared bounds: `0 <= senior_citizen <= 1`, `0 <= tenure <= 72`, `monthly_charges > 0`. */
  predicate InBounds(q: PredictionRequest) {
    0 <= q.seniorCitizen <= 1 && 0 <= q.tenure <= 72 && q.monthlyCharges > 0.0
  }

  /** A field declared with `...` (no default) is left out or null. */
  predicate MissingRequired(b: RequestBody) {
    || !b.gender.Sent? || !b.partner.Sent? || !b.dependents.Sent? || !b.tenure.Sent?
    || !b.internetService.Sent? || !b.contract.Sent? || !b.paymentMethod.Sent?
    || !b.monthlyCharges.Sent?
  }

  /**
   * A field with a default but a non-optional type is sent as null: the default
   * stands only for a key left out, and null is not an `int` or a `str`.
   */
  predicate NullDefaulted(b: RequestBody) {
    || b.seniorCitizen.SentNull? || b.phoneService.SentNull? || b.multipleLines.SentNull?
    || b.onlineSecurity.SentNull? || b.onlineBackup.SentNull? || b.deviceProtection.SentNull?
    || b.techSupport.SentNull? || b.streamingTv.SentNull? || b.streamingMovies.SentNull?
    || b.paperlessBilling.SentNull?
  }

  /**
   * The body validation the framework runs before the route: 422 for a missing
   * required field, a null where the type is not optional, or a value out of
   * its bounds; the declared default for an omitted field; None for an omitted
   * or null optional field.
   */
  function ValidateRequest(b: RequestBody): (r: Result<PredictionRequest, ApiError>)
    ensures r.Err? ==> r.error == Unprocessable
    ensures r.Ok? <==>
      && !MissingRequired(b)
      && !NullDefaulted(b)
      && 0 <= Or(b.seniorCitizen, 0) <= 1
      && 0 <= b.tenure.v <= 72
      && b.monthlyCharges.v > 0.0
    ensures r.Ok? ==> InBounds(r.value)
    ensures r.Ok? ==> r.value.customerId == SentValue(b.customerId) && r.value.totalCharges == SentValue(b.totalCharges)
  {
    if MissingRequired(b) || NullDefaulted(b) then Err(Unprocessable)
    else
      var q := PredictionRequest(
        SentValue(b.customerId), b.gender.v, Or(b.seniorCitizen, 0),
        b.partner.v, b.dependents.v, b.tenure.v,
        Or(b.phoneService, "Yes"), Or(b.multipleLines, "No"), b.internetService.v,
        Or(b.onlineSecurity, "No"), Or(b.onlineBackup, "No"), Or(b.deviceProtection, "No"),
        Or(b.techSupport, "No"), Or(b.streamingTv, "No"), Or(b.streamingMovies, "No"),
        b.contract.v, Or(b.paperlessBilling, "Yes"), b.paymentMethod.v,
        b.monthlyCharges.v, SentValue(b.totalCharges));
      if InBounds(q) then Ok(q) else Err(Unprocessable)
  }

  /** The body a client sends when it spells out every field of `q`, leaving out the absent optional ones. */
  function BodyOf(q: PredictionRequest): RequestBody {
    RequestBody(
      if q.customerId.Some? then Sent(q.customerId.value) else Omitted, Sent(q.gender), Sent(q.seniorCitizen),
      Sent(q.partner), Sent(q.dependents), Sent(q.tenure),
      Sent(q.phoneService), Sent(q.multipleLines), Sent(q.internetService),
      Sent(q.onlineSecurity), Sent(q.onlineBackup), Sent(q.deviceProtection),
      Sent(q.techSupport), Sent(q.streamingTv), Sent(q.streamingMovies),
      Sent(q.contract), Sent(q.paperlessBilling), Sent(q.paymentMethod),
      Sent(q.monthlyCharges), if q.totalCharges.Some? then Sent(q.totalCharges.value) else Omitted)
  }

  /** Validation accepts exactly the in-bounds requests when every field is spelled out, and keeps them. */
  lemma ValidateRoundTrip(q: PredictionRequest)
    ensures ValidateRequest(BodyOf(q)).Ok? <==> InBounds(q)
    ensures InBounds(q) ==> ValidateRequest(BodyOf(q)) == Ok(q)
  {
  }

  /**
   * Null and left out differ on a defaulted field: in an accepted body, leaving
   * out `senior_citizen` or `phone_service` keeps the body accepted with the
   * default in place, sending either as null is refused, and an optional field
   * may be null.
   */
  lemma NullIsNotOmitted(b: RequestBody)
    requires ValidateRequest(b).Ok?
    ensures ValidateRequest(b.(seniorCitizen := Omitted)).Ok?
    ensures ValidateRequest(b.(seniorCitizen := Omitted)).value.seniorCitizen == 0
    ensures ValidateRequest(b.(seniorCitizen := SentNull)) == Err(Unprocessable)
    ensures ValidateRequest(b.(phoneService := Omitted)).Ok?
    ensures ValidateRequest(b.(phoneService := Omitted)).value.phoneService == "Yes"
    ensures ValidateRequest(b.(phoneService := SentNull)) == Err(Unprocessable)
    ensures ValidateRequest(b.(customerId := SentNull)).Ok?
    ensures ValidateRequest(b.(customerId := SentNull)).value.customerId.None?
  {
  }

  // ---------------------------------------------------- `request.dict()` and the frame

  /** `request.dict()`: every field, in declaration order, omitted ones as None. */
  function RequestDict(q: PredictionRequest): Dict<Value> {
    [ ("customer_id", OptText(q.customerId)),
      ("gender", Str(q.gender)),
      ("senior_citizen", Num(q.seniorCitizen as real)),
      ("partner", Str(q.partner)),
      ("dependents", Str(q.dependents)),
      ("tenure", Num(q.tenure as real)),
      ("phone_service", Str(q.phoneService)),
      ("multiple_lines", Str(q.multipleLines)),
      ("internet_service", Str(q.internetService)),
      ("online_security", Str(q.onlineSecurity)),
      ("online_backup", Str(q.onlineBackup)),
      ("device_protection", Str(q.deviceProtection)),
      ("tech_support", Str(q.techSupport)),
      ("streaming_tv", Str(q.streamingTv)),
      ("streaming_movies", Str(q.streamingMovies)),
      ("contract", Str(q.contract)),
      ("paperless_billing", Str(q.paperlessBilling)),
      ("payment_method", Str(q.paymentMethod)),
      ("monthly_charges", Num(q.monthlyCharges)),
      ("total_charges", OptNum(q.totalCharges)) ]
  }

  /** `monthly_charges * tenure` stands in for a missing `total_charges`. */
  function WithTotal(q: PredictionRequest): (f: PredictionRequest)
    ensures f.totalCharges.Some?
    ensures q.totalCharges.Some? ==> f == q
    ensures q.totalCharges.None? ==> f == q.(totalCharges := Some(q.monthlyCharges * q.tenure as real))
  {
    q.(totalCharges := Some(q.totalCharges.GetOr(q.monthlyCharges * q.tenure as real)))
  }

  /**
   * Filling in the total changes the request dict in the `total_charges` entry only:
   * a supplied total is kept, a missing one becomes `monthly_charges * tenure`.
   */
  lemma WithTotalDict(q: PredictionRequest)
    ensures |RequestDict(WithTotal(q))| == |RequestDict(q)| == 20
    ensures RequestDict(WithTotal(q))[..19] == RequestDict(q)[..19]
    ensures RequestDict(WithTotal(q))[19] ==
      ("total_charges", Num(if q.totalCharges.Some? then q.totalCharges.value else q.monthlyCharges * q.tenure as real))
  {
  }

  /**
   * One request field: its key in `request.dict()`, the frame column it fills, and the
   * value what-if analysis falls back on when a stored record lacks the key.
   */
  datatype Field = Field(key: string, column: string, default: Value)

  /** The request fields after `customer_id`, in the order of the frame's columns. */
  const Fields: seq<Field> := [
    Field("gender", "gender", Null),
    Field("senior_citizen", "SeniorCitizen", Num(0.0)),
    Field("partner", "Partner", Null),
    Field("dependents", "Dependents", Null),
    Field("tenure", "tenure", Null),
    Field("phone_service", "PhoneService", Str("Yes")),
    Field("multiple_lines", "MultipleLines", Str("No")),
    Field("internet_service", "InternetService", Null),
    Field("online_security", "OnlineSecurity", Str("No")),
    Field("online_backup", "OnlineBackup", Str("No")),
    Field("device_protection", "DeviceProtection", Str("No")),
    Field("tech_support", "TechSupport", Str("No")),
    Field("streaming_tv", "StreamingTV", Str("No")),
    Field("streaming_movies", "StreamingMovies", Str("No")),
    Field("contract", "Contract", Null),
    Field("paperless_billing", "PaperlessBilling", Str("Yes")),
    Field("payment_method", "PaymentMethod", Null),
    Field("monthly_charges", "MonthlyCharges", Null),
    Field("total_charges", "TotalCharges", Null)]

  function FieldKeys(fields: seq<Field>): (r: seq<string>)
    ensures |r| == |fields| && forall j :: 0 <= j < |r| ==> r[j] == fields[j].key
  {
    seq(|fields|, j requires 0 <= j < |fields| => fields[j].key)
  }

  function FieldColumns(fields: seq<Field>): (r: seq<string>)
    ensures |r| == |fields| && forall j :: 0 <= j < |r| ==> r[j] == fields[j].column
  {
    seq(|fields|, j requires 0 <= j < |fields| => fields[j].column)
  }

  /** The customer id's column comes first, then one column per field. */
  const FrameColumns := ["customerID"] + FieldColumns(Fields)

  /**
   * The position of a field key among the fields, told by its length and first
   * letter alone; -1 for any other text. It shows that no two keys coincide.
   */
  function KeyRank(s: string): int {
    if s == [] then -1
    else if |s| == 6 && s[0] == 'g' then 0
    else if |s| == 14 && s[0] == 's' then 1
    else if |s| == 7 && s[0] == 'p' then 2
    else if |s| == 10 && s[0] == 'd' then 3
    else if |s| == 6 && s[0] == 't' then 4
    else if |s| == 13 && s[0] == 'p' then 5
    else if |s| == 14 && s[0] == 'm' then 6
    else if |s| == 16 && s[0] == 'i' then 7
    else if |s| == 15 && s[0] == 'o' then 8
    else if |s| == 13 && s[0] == 'o' then 9
    else if |s| == 17 && s[0] == 'd' then 10
    else if |s| == 12 && s[0] == 't' then 11
    else if |s| == 12 && s[0] == 's' then 12
    else if |s| == 16 && s[0] == 's' then 13
    else if |s| == 8 && s[0] == 'c' then 14
    else if |s| == 17 && s[0] == 'p' then 15
    else if |s| == 14 && s[0] == 'p' then 16
    else if |s| == 15 && s[0] == 'm' then 17
    else if |s| == 13 && s[0] == 't' then 18
    else -1
  }

  /** The same for the frame's columns, `customerID` included. */
  function ColumnRank(s: string): int {
    if s == [] then -1
    else if |s| == 10 && s[0] == 'c' then 0
    else if |s| == 6 && s[0] == 'g' then 1
    else if |s| == 13 && s[0] == 'S' then 2
    else if |s| == 7 && s[0] == 'P' then 3
    else if |s| == 10 && s[0] == 'D' then 4
    else if |s| == 6 && s[0] == 't' then 5
    else if |s| == 12 && s[0] == 'P' then 6
    else if |s| == 13 && s[0] == 'M' then 7
    else if |s| == 15 && s[0] == 'I' then 8
    else if |s| == 14 && s[0] == 'O' then 9
    else if |s| == 12 && s[0] == 'O' then 10
    else if |s| == 16 && s[0] == 'D' then 11
    else if |s| == 11 && s[0] == 'T' then 12
    else if |s| == 11 && s[0] == 'S' then 13
    else if |s| == 15 && s[0] == 'S' then 14
    else if |s| == 8 && s[0] == 'C' then 15
    else if |s| == 16 && s[0] == 'P' then 16
    else if |s| == 13 && s[0] == 'P' then 17
    else if |s| == 14 && s[0] == 'M' then 18
    else if |s| == 12 && s[0] == 'T' then 19
    else -1
  }

  /** No two fields share a key, and no field uses `customer_id`. */
  lemma FieldKeysOneToOne()
    ensures |Fields| == 19
    ensures Distinct(FieldKeys(Fields)) && "customer_id" !in FieldKeys(Fields)
  {
    forall j | 0 <= j < |Fields| ensures KeyRank(Fields[j].key) == j {
    }
    assert KeyRank("customer_id") == -1;
  }

  /** No two fields share a column, and no field uses `customerID`. */
  lemma FieldColumnsOneToOne()
    ensures Distinct(FieldColumns(Fields)) && "customerID" !in FieldColumns(Fields)
    ensures Distinct(FrameColumns)
  {
    forall j | 0 <= j < |Fields| ensures ColumnRank(Fields[j].column) == j + 1 {
    }
    assert ColumnRank("customerID") == 0;
  }

  /** `d.get(f.key, f.default)`. */
  function Lookup(d: Dict<Value>, f: Field): Value {
    Get(d, f.key).GetOr(f.default)
  }

  /** The row's cells for `fields`, each column given the value its key looks up in `d`. */
  function RowFrom(d: Dict<Value>, fields: seq<Field>): Row
    decreases |fields|
  {
    if fields == [] then map[]
    else
      var last := fields[|fields| - 1];
      RowFrom(d, fields[..|fields| - 1])[last.column := Lookup(d, last)]
  }

  /** With distinct columns, each field's column holds exactly its own looked-up value. */
  lemma {:induction false} RowFromCells(d: Dict<Value>, fields: seq<Field>)
    requires Distinct(FieldColumns(fields))
    ensures forall c :: c in RowFrom(d, fields) <==> c in FieldColumns(fields)
    ensures forall j :: 0 <= j < |fields| ==> RowFrom(d, fields)[fields[j].column] == Lookup(d, fields[j])
    decreases |fields|
  {
    if fields != [] {
      var init := fields[..|fields| - 1];
      assert FieldColumns(init) == FieldColumns(fields)[..|fields| - 1];
      RowFromCells(d, init);
      forall c ensures c in FieldColumns(fields) <==> c in FieldColumns(init) || c == fields[|fields| - 1].column {
        assert FieldColumns(fields) == FieldColumns(init) + [fields[|fields| - 1].column];
      }
    }
  }

  /** The one-row frame handed to feature engineering, `customerID` first. */
  function RequestFrame(d: Dict<Value>, id: Value): Frame {
    Frame(FrameColumns, [RowFrom(d, Fields)["customerID" := id]])
  }

  /**
   * The frame is well formed, its `customerID` cell is the id, and every field's
   * column holds the value its key looks up.
   */
  lemma RequestFrameCells(d: Dict<Value>, id: Value)
    ensures WellFormed(RequestFrame(d, id)) && |RequestFrame(d, id).rows| == 1
    ensures Cell(RequestFrame(d, id).rows[0], "customerID") == id
    ensures forall j :: 0 <= j < |Fields| ==>
      Cell(RequestFrame(d, id).rows[0], Fields[j].column) == Lookup(d, Fields[j])
  {
    FieldColumnsOneToOne();
    RowFromCells(d, Fields);
  }

  /** The request dict's entries after `customer_id` line up with the fields. */
  lemma RequestDictKeys(q: PredictionRequest)
    ensures |RequestDict(q)| == 20 && RequestDict(q)[0].0 == "customer_id"
    ensures forall j :: 0 <= j < 19 ==> RequestDict(q)[j + 1].0 == Fields[j].key
  {
  }

  /**
   * In the frame built from a request, every field's column holds that field's
   * request value: each of the 19 fields lands in exactly its own column.
   */
  lemma RequestFrameFields(q: PredictionRequest, id: Value)
    ensures forall j :: 0 <= j < |Fields| ==>
      Cell(RequestFrame(RequestDict(q), id).rows[0], Fields[j].column) == RequestDict(q)[j + 1].1
  {
    var d := RequestDict(q);
    RequestFrameCells(d, id);
    RequestDictKeys(q);
    FieldKeysOneToOne();
    forall j | 0 <= j < |Fields| ensures Lookup(d, Fields[j]) == d[j + 1].1 {
      LookupShifted(d, j);
    }
  }

  /** In a dict keyed `customer_id` and then the field keys in order, field `j` finds entry `j + 1`. */
  lemma LookupShifted(d: Dict<Value>, j: int)
    requires |d| == 20 && d[0].0 == "customer_id" && 0 <= j < |Fields|
    requires forall i :: 0 <= i < 19 ==> d[i + 1].0 == Fields[i].key
    requires Distinct(FieldKeys(Fields)) && "customer_id" !in FieldKeys(Fields)
    ensures Lookup(d, Fields[j]) == d[j + 1].1
  {
    forall i | 0 <= i < j + 1 ensures d[i].0 != d[j + 1].0 {
      if i > 0 {
        assert FieldKeys(Fields)[i - 1] != FieldKeys(Fields)[j];
      } else {
        assert FieldKeys(Fields)[j] != "customer_id";
      }
    }
    GetAt(d, j + 1);
  }

  /** The `customer_id` entry of the request dict. */
  lemma RequestDictId(q: PredictionRequest)
    ensures Get(RequestDict(q), "customer_id") == Some(OptText(q.customerId))
  {
    GetAt(RequestDict(q), 0);
  }

  // ------------------------------------------------------------- the customer id

  /** `input_data.get('customer_id', "CUST_" + stamp)` as written. */
  function CustomerIdAsWritten(input: Dict<Value>, stamp: string): Value {
    Get(input, "customer_id").GetOr(Str("CUST_" + stamp))
  }

  /** The generated id for a request that carries none, as the fallback is evidently meant. */
  function CustomerIdIntended(input: Dict<Value>, stamp: string): Value {
    var given := Get(input, "customer_id");
    if given.Some? && given.value.Str? then given.value else Str("CUST_" + stamp)
  }

  /** The text of a stored customer id; anything else stands for a missing one. */
  function IdText(v: Value): (r: Option<string>)
    ensures r.Some? <==> v.Str?
  {
    if v.Str? then Some(v.s) else None
  }

  /** As written, an omitted id never falls back: the key is present with the value None. */
  lemma IdAsWrittenKeepsNone(q: PredictionRequest, stamp: string)
    requires q.customerId.None?
    ensures CustomerIdAsWritten(RequestDict(q), stamp) == Null
  {
    RequestDictId(q);
  }

  /** As intended, a supplied id is kept and an omitted one becomes `CUST_<stamp>`. */
  lemma IdIntended(q: PredictionRequest, stamp: string)
    ensures q.customerId.Some? ==> CustomerIdIntended(RequestDict(q), stamp) == Str(q.customerId.value)
    ensures q.customerId.None? ==> CustomerIdIntended(RequestDict(q), stamp) == Str("CUST_" + stamp)
  {
    RequestDictId(q);
  }

  // ------------------------------------------------------------------- scoring

  /**
   * What the route reads from outside: the one-hot encoder, the time stamp text, the
   * UTC time the database gives the row's `prediction_date` at commit, and the
   * `datetime.now().isoformat()` text of the local clock the answer carries.
   */
  datatype Env = Env(oneHot: DataProcessing.OneHot, stamp: string, now: Timestamp, answeredAt: string)

  /** The fitted scaler's `transform`: the processed features as a matrix, or what it raises. */
  datatype Scaler = Scaler(transform: Frame -> Result<seq<seq<real>>, string>)

  /** The loaded objects as values: the model, its name, the scaler, and the SHAP explainer if one was built. */
  datatype Loaded = Loaded(
    classifier: Classifier, modelName: string, scaler: Scaler,
    explainer: Option<Option<ShapEngine>>)

  /** Feature engineering, then `process_pipeline(fit=False)` up to the scaler. */
  function Prepared(f: Frame, oneHot: DataProcessing.OneHot): Result<DataProcessing.Processed, string> {
    var engineered :- FeatureEngineering.EngineerFeatures(f);
    DataProcessing.Pipeline(engineered, "Churn", oneHot)
  }

  /** The scaled matrix, its feature names, and the prediction for its first row. */
  datatype Scored = Scored(row: seq<real>, names: seq<string>, outcome: Outcome)

  /** Engineering, processing, scaling and `predict_single`, any of which may raise. */
  function ScoreOne(l: Loaded, f: Frame, oneHot: DataProcessing.OneHot): (r: Result<Scored, string>)
    ensures r.Ok? ==> r.value.outcome == Inference.Assemble(l.classifier, l.modelName, r.value.row)
  {
    var p :- Prepared(f, oneHot);
    var rows :- l.scaler.transform(p.x);
    if rows == [] then Err(NoRows)
    else Ok(Scored(rows[0], p.featureNames, Inference.Assemble(l.classifier, l.modelName, rows[0])))
  }

  /** One feature impact as the JSON object stored and returned. */
  function ImpactValue(f: FeatureImpact): Value {
    Object([("feature", Str(f.feature)), ("value", Num(f.value)),
            ("shap_value", Num(f.shapValue)), ("impact", Str(f.impact))])
  }

  function ImpactsValue(fs: seq<FeatureImpact>): Value {
    List(seq(|fs|, i requires 0 <= i < |fs| => ImpactValue(fs[i])))
  }

  function TextsValue(ss: seq<string>): Value {
    List(seq(|ss|, i requires 0 <= i < |ss| => Str(ss[i])))
  }

  /**
   * The top features and recommendations the route keeps: both empty without an
   * explainer or when the explanation is empty.
   */
  function Explained(explainer: Option<Option<ShapEngine>>, s: Scored): (seq<FeatureImpact>, seq<string>) {
    if explainer.None? then ([], [])
    else
      match Explain(explainer.value, s.row, s.names)
      case None => ([], [])
      case Some(e) => (e.topFeatures, Recommendations(e.featureImpacts, s.outcome.churnProbability))
  }

  datatype PredictionResponse = PredictionResponse(
    customerId: string, churnPrediction: bool, churnProbability: real, riskLevel: string,
    topFeatures: seq<FeatureImpact>, recommendations: seq<string>, modelName: string,
    predictionDate: string)

  /** A route's answer and the predictions table after it. */
  datatype Served<R> = Served(response: Result<R, ApiError>, table: seq<Prediction>)

  /** The draft stored for one scored request. */
  function SingleDraft(input: Dict<Value>, id: Value, s: Scored, shown: (seq<FeatureImpact>, seq<string>)): PredictionDraft {
    var o := s.outcome;
    PredictionDraft(IdText(id), o.churnProbability, o.churnPrediction, Some(o.riskLevel),
                    Some(o.modelName), Some(ModelVersion), Object(input),
                    ImpactsValue(shown.0), TextsValue(shown.1))
  }

  /** Storing the scored request and answering it. */
  function Record(explainer: Option<Option<ShapEngine>>, input: Dict<Value>, id: Value, s: Scored,
                  now: Timestamp, answeredAt: string, table: seq<Prediction>): Served<PredictionResponse>
  {
    var shown := Explained(explainer, s);
    var draft := SingleDraft(input, id, s, shown);
    match InsertPrediction(table, draft, now)
    case Err(e) => Served(Err(PredictionFailed(e)), table)
    case Ok(t) =>
      var o := s.outcome;
      Served(Ok(PredictionResponse(draft.customerId.value, o.churnPrediction, Round4(o.churnProbability),
                                   o.riskLevel, shown.0, shown.1, o.modelName, answeredAt)), t)
  }

  /** The frame scored for a request whose id is chosen by `idOf`. */
  function FrameFor(q: PredictionRequest, env: Env, idOf: (Dict<Value>, string) -> Value): Frame {
    RequestFrame(RequestDict(WithTotal(q)), idOf(RequestDict(q), env.stamp))
  }

  /** The answer to a request once it is scored, or the failure scoring raised. */
  function Respond(scored: Result<Scored, string>, explainer: Option<Option<ShapEngine>>,
                   input: Dict<Value>, id: Value, now: Timestamp, answeredAt: string,
                   table: seq<Prediction>): Served<PredictionResponse>
  {
    match scored
    case Err(e) => Served(Err(PredictionFailed(e)), table)
    case Ok(s) => Record(explainer, input, id, s, now, answeredAt, table)
  }

  /** `predict_churn` once the models are loaded, with the customer id chosen by `idOf`. */
  function Serve(l: Loaded, q: PredictionRequest, env: Env, table: seq<Prediction>,
                 idOf: (Dict<Value>, string) -> Value): Served<PredictionResponse>
  {
    Respond(ScoreOne(l, FrameFor(q, env, idOf), env.oneHot), l.explainer,
            RequestDict(WithTotal(q)), idOf(RequestDict(q), env.stamp), env.now, env.answeredAt, table)
  }

  /** Every failure is a 500 "Prediction failed: ..." and stores nothing. */
  lemma RespondFailure(scored: Result<Scored, string>, explainer: Option<Option<ShapEngine>>,
                       input: Dict<Value>, id: Value, now: Timestamp, answeredAt: string,
                       table: seq<Prediction>)
    ensures var r := Respond(scored, explainer, input, id, now, answeredAt, table);
      r.response.Err? ==> FailedWith(r.response.error, "Prediction failed: ") && r.table == table
  {
    match scored
    case Err(e) => FailedPrefix("Prediction failed: ", e);
    case Ok(s) =>
      var ins := InsertPrediction(table, SingleDraft(input, id, s, Explained(explainer, s)), now);
      if ins.Err? {
        FailedPrefix("Prediction failed: ", ins.error);
      }
  }

  /**
   * A success stores exactly one new row: `input` as its features, the unrounded
   * probability and the risk level for it; the answer carries the same id and level
   * and the probability rounded to 4 places. The row's date is the UTC time of the
   * commit, the answer's date the local clock's text: two readings of two clocks.
   */
  lemma RespondStores(scored: Result<Scored, string>, explainer: Option<Option<ShapEngine>>,
                      input: Dict<Value>, id: Value, now: Timestamp, answeredAt: string,
                       table: seq<Prediction>)
    ensures var r := Respond(scored, explainer, input, id, now, answeredAt, table);
      r.response.Ok? ==>
        && scored.Ok?
        && |r.table| == |table| + 1 && r.table[..|table|] == table
        && var p := r.table[|table|]; var a := r.response.value;
        && p.features == Object(input)
        && id == Str(a.customerId) && p.customerId == a.customerId
        && p.churnProbability == scored.value.outcome.churnProbability
        && a.churnProbability == Round4(p.churnProbability)
        && p.riskLevel == Some(a.riskLevel) && a.riskLevel == scored.value.outcome.riskLevel
        && p.modelVersion == Some(ModelVersion) && p.shapValues == Null
        && p.predictionDate == Some(now) && a.predictionDate == answeredAt
  {
  }

  /** Without a usable id the row is refused: the answer is a 500 and nothing is stored. */
  lemma RespondWithoutId(scored: Result<Scored, string>, explainer: Option<Option<ShapEngine>>,
                         input: Dict<Value>, id: Value, now: Timestamp, answeredAt: string,
                         table: seq<Prediction>)
    requires !id.Str?
    ensures var r := Respond(scored, explainer, input, id, now, answeredAt, table);
      r.response.Err? && r.table == table
      && (scored.Ok? ==> r.response.error == PredictionFailed(NullCustomerId))
  {
  }

  /** With a text id, a scored request is always stored and answered under that id. */
  lemma RespondWithId(scored: Result<Scored, string>, explainer: Option<Option<ShapEngine>>,
                      input: Dict<Value>, id: string, now: Timestamp, answeredAt: string,
                      table: seq<Prediction>)
    ensures var r := Respond(scored, explainer, input, Str(id), now, answeredAt, table);
      (r.response.Ok? <==> scored.Ok?)
      && (r.response.Ok? ==> r.response.value.customerId == id)
  {
  }

  /**
   * As written, a request that leaves out `customer_id` always ends in a 500 and
   * stores nothing: the fallback never applies and the NOT NULL column refuses the row.
   */
  lemma OmittedIdAsWritten(l: Loaded, q: PredictionRequest, env: Env, table: seq<Prediction>)
    requires q.customerId.None?
    ensures var r := Serve(l, q, env, table, CustomerIdAsWritten);
      r.response.Err? && r.table == table
  {
    IdAsWrittenKeepsNone(q, env.stamp);
    RespondWithoutId(ScoreOne(l, FrameFor(q, env, CustomerIdAsWritten), env.oneHot), l.explainer,
                     RequestDict(WithTotal(q)), Null, env.now, env.answeredAt, table);
  }

  /**
   * As intended, such a request is answered and stored under `CUST_<stamp>` whenever
   * it can be scored; a supplied id is used as given.
   */
  lemma OmittedIdIntended(l: Loaded, q: PredictionRequest, env: Env, table: seq<Prediction>)
    ensures var r := Serve(l, q, env, table, CustomerIdIntended);
      && (r.response.Ok? <==> ScoreOne(l, FrameFor(q, env, CustomerIdIntended), env.oneHot).Ok?)
      && (r.response.Ok? && q.customerId.None? ==> r.response.value.customerId == "CUST_" + env.stamp)
      && (r.response.Ok? && q.customerId.Some? ==> r.response.value.customerId == q.customerId.value)
  {
    IdIntended(q, env.stamp);
    var id := if q.customerId.Some? then q.customerId.value else "CUST_" + env.stamp;
    RespondWithId(ScoreOne(l, FrameFor(q, env, CustomerIdIntended), env.oneHot), l.explainer,
                  RequestDict(WithTotal(q)), id, env.now, env.answeredAt, table);
  }

  // ------------------------------------------------------------ batch scoring

  /** What pandas raises when a column is assigned a list of another length than the frame. */
  function LengthMismatch(values: nat, index: nat): string {
    "Length of values (" + NatToString(values) + ") does not match length of index (" + NatToString(index) + ")"
  }

  /** The columns the batch answer adds to the uploaded frame. */
  const OutputColumns := ["churn_prediction", "churn_probability", "risk_level"]

  /** One uploaded row with its prediction, rounded probability and risk level assigned. */
  function PredictedRow(r: Row, o: Outcome): Row {
    r["churn_prediction" := Bool(o.churnPrediction)]
     ["churn_probability" := Num(Round4(o.churnProbability))]
     ["risk_level" := Str(o.riskLevel)]
  }

  /** The three column assignments; a list whose length differs from the frame's raises. */
  function WithPredictions(df: Frame, outs: seq<Outcome>): (r: Result<Frame, string>)
    ensures r.Ok? <==> |outs| == |df.rows|
    ensures r.Ok? ==> |r.value.rows| == |df.rows|
    ensures r.Err? ==> r.error == LengthMismatch(|outs|, |df.rows|)
  {
    if |outs| != |df.rows| then Err(LengthMismatch(|outs|, |df.rows|))
    else Ok(Frame(AddColumns(df.columns, OutputColumns),
                  seq(|outs|, i requires 0 <= i < |outs| => PredictedRow(df.rows[i], outs[i]))))
  }

  /** `df.iloc[i].get('customerID', f"BATCH_{i}")`: the row's cell whenever the column exists. */
  function BatchId(df: Frame, i: nat): Value
    requires i < |df.rows|
  {
    if "customerID" in df.columns then Cell(df.rows[i], "customerID") else Str("BATCH_" + NatToString(i))
  }

  /** The row added for one batch result: no features, explanation or recommendations. */
  function BatchDraft(id: Value, o: Outcome): PredictionDraft {
    PredictionDraft(IdText(id), o.churnProbability, o.churnPrediction, Some(o.riskLevel),
                    Some(o.modelName), Some(ModelVersion), Null, Null, Null)
  }

  function BatchDrafts(df: Frame, outs: seq<Outcome>): seq<PredictionDraft>
    requires |outs| <= |df.rows|
  {
    seq(|outs|, i requires 0 <= i < |outs| => BatchDraft(BatchId(df, i), outs[i]))
  }

  /** Several `db.add` and one commit: every row is stored, or none when one breaks a constraint. */
  function InsertAll(t: seq<Prediction>, ds: seq<PredictionDraft>, now: Timestamp): Result<seq<Prediction>, string>
    decreases |ds|
  {
    if ds == [] then Ok(t)
    else
      var u :- InsertPrediction(t, ds[0], now);
      InsertAll(u, ds[1..], now)
  }

  /**
   * The commit fails exactly when some draft lacks a customer id; otherwise the drafts
   * are appended in order, each under the next row id.
   */
  lemma {:induction false} InsertAllSpec(t: seq<Prediction>, ds: seq<PredictionDraft>, now: Timestamp)
    ensures InsertAll(t, ds, now).Err? <==> exists i :: 0 <= i < |ds| && ds[i].customerId.None?
    ensures InsertAll(t, ds, now).Ok? ==>
      var u := InsertAll(t, ds, now).value;
      && |u| == |t| + |ds| && u[..|t|] == t
      && forall i :: 0 <= i < |ds| ==> u[|t| + i] == StoredRow(ds[i], |t| + i + 1, now)
    decreases |ds|
  {
    if ds != [] {
      var ins := InsertPrediction(t, ds[0], now);
      if ins.Ok? {
        var u := ins.value;
        InsertAllSpec(u, ds[1..], now);
        assert forall i :: 1 <= i < |ds| ==> ds[1..][i - 1] == ds[i];
        if InsertAll(t, ds, now).Ok? {
          var w := InsertAll(t, ds, now).value;
          assert w == InsertAll(u, ds[1..], now).value;
          assert w[..|t|] == u[..|t|];
          forall i | 0 <= i < |ds|
            ensures w[|t| + i] == StoredRow(ds[i], |t| + i + 1, now)
          {
            if i == 0 {
              assert w[|t|] == w[..|u|][|t|];
            } else {
              assert w[|u| + (i - 1)] == StoredRow(ds[1..][i - 1], |u| + (i - 1) + 1, now);
            }
          }
        }
      }
    }
  }

  /** `predict_batch` on the scaled rows of the processed upload: one labelled outcome per row. */
  function ScoreAll(l: Loaded, df: Frame, oneHot: DataProcessing.OneHot): (r: Result<seq<Outcome>, string>)
    ensures r.Ok? ==> Labelled(r.value, l.modelName)
  {
    var p :- Prepared(df, oneHot);
    var rows :- l.scaler.transform(p.x);
    Ok(seq(|rows|, i requires 0 <= i < |rows| => Inference.Assemble(l.classifier, l.modelName, rows[i])))
  }

  /** Each outcome carries the risk level of its probability and the model's name. */
  predicate Labelled(outs: seq<Outcome>, modelName: string) {
    forall i :: 0 <= i < |outs| ==>
      outs[i].riskLevel == RiskLevel(outs[i].churnProbability) && outs[i].modelName == modelName
  }

  /** Adding the columns, then the rows and the commit, for the scored upload. */
  function StoreBatch(df: Frame, outs: seq<Outcome>, now: Timestamp, table: seq<Prediction>): Served<Frame> {
    match WithPredictions(df, outs)
    case Err(e) => Served(Err(BatchFailed(e)), table)
    case Ok(out) =>
      match InsertAll(table, BatchDrafts(out, outs), now)
      case Err(e) => Served(Err(BatchFailed(e)), table)
      case Ok(stored) => Served(Ok(out), stored)
  }

  /** `POST /predict-batch` once the models are loaded: any failure is a 500. */
  function ServeBatch(l: Loaded, upload: Result<Frame, string>, oneHot: DataProcessing.OneHot,
                      now: Timestamp, table: seq<Prediction>): Served<Frame>
  {
    if upload.Err? then Served(Err(BatchFailed(upload.error)), table)
    else
      match ScoreAll(l, upload.value, oneHot)
      case Err(e) => Served(Err(BatchFailed(e)), table)
      case Ok(outs) => StoreBatch(upload.value, outs, now, table)
  }

  /** Every batch failure is a 500 "Batch prediction failed: ..." and stores nothing. */
  lemma BatchFailure(l: Loaded, upload: Result<Frame, string>, oneHot: DataProcessing.OneHot,
                     now: Timestamp, table: seq<Prediction>)
    ensures var r := ServeBatch(l, upload, oneHot, now, table);
      r.response.Err? ==> FailedWith(r.response.error, "Batch prediction failed: ") && r.table == table
  {
    if upload.Err? {
      FailedPrefix("Batch prediction failed: ", upload.error);
    } else {
      var scored := ScoreAll(l, upload.value, oneHot);
      if scored.Err? {
        FailedPrefix("Batch prediction failed: ", scored.error);
      } else {
        var df, outs := upload.value, scored.value;
        var w := WithPredictions(df, outs);
        if w.Err? {
          FailedPrefix("Batch prediction failed: ", w.error);
        } else {
          var ins := InsertAll(table, BatchDrafts(w.value, outs), now);
          if ins.Err? {
            FailedPrefix("Batch prediction failed: ", ins.error);
          }
        }
      }
    }
  }

  /** The assigned columns hold the outcome's fields; every other cell is the uploaded one. */
  lemma PredictedRowCells(r: Row, o: Outcome)
    ensures Cell(PredictedRow(r, o), "churn_prediction") == Bool(o.churnPrediction)
    ensures Cell(PredictedRow(r, o), "churn_probability") == Num(Round4(o.churnProbability))
    ensures Cell(PredictedRow(r, o), "risk_level") == Str(o.riskLevel)
    ensures forall c :: c !in OutputColumns ==> Cell(PredictedRow(r, o), c) == Cell(r, c)
  {
    assert "churn_prediction"[8] != "churn_probability"[8];
  }

  /**
   * A stored batch answers the uploaded rows in their order, each with its own
   * prediction, probability rounded to 4 places and risk level for that probability,
   * and every other cell as uploaded.
   */
  lemma BatchAnswerRows(df: Frame, outs: seq<Outcome>, modelName: string, now: Timestamp, table: seq<Prediction>)
    requires Labelled(outs, modelName)
    ensures var r := StoreBatch(df, outs, now, table);
      r.response.Ok? ==>
        && var out := r.response.value;
        && |out.rows| == |df.rows| == |outs|
        && out.columns == AddColumns(df.columns, OutputColumns)
        && forall i :: 0 <= i < |df.rows| ==>
             && Cell(out.rows[i], "churn_prediction") == Bool(outs[i].churnPrediction)
             && Cell(out.rows[i], "churn_probability") == Num(Round4(outs[i].churnProbability))
             && Cell(out.rows[i], "risk_level") == Str(RiskLevel(outs[i].churnProbability))
             && forall c :: c !in OutputColumns ==> Cell(out.rows[i], c) == Cell(df.rows[i], c)
  {
    if StoreBatch(df, outs, now, table).response.Ok? {
      var out := WithPredictions(df, outs).value;
      forall i | 0 <= i < |df.rows|
        ensures Cell(out.rows[i], "churn_prediction") == Bool(outs[i].churnPrediction)
        ensures Cell(out.rows[i], "churn_probability") == Num(Round4(outs[i].churnProbability))
        ensures Cell(out.rows[i], "risk_level") == Str(RiskLevel(outs[i].churnProbability))
        ensures forall c :: c !in OutputColumns ==> Cell(out.rows[i], c) == Cell(df.rows[i], c)
      {
        assert out.rows[i] == PredictedRow(df.rows[i], outs[i]);
        PredictedRowCells(df.rows[i], outs[i]);
      }
    }
  }

  /** `customerID` is none of the added columns, so the answer keeps each row's id cell. */
  lemma IdNotOutput()
    ensures "customerID" !in OutputColumns
  {
    assert "customerID"[1] != "churn_prediction"[1];
    assert "customerID"[1] != "churn_probability"[1];
    assert "customerID"[0] != "risk_level"[0];
  }

  /** The id read for a row of the answer is the one of the uploaded row. */
  lemma BatchIdKept(df: Frame, outs: seq<Outcome>, i: nat)
    requires |outs| == |df.rows| && i < |df.rows|
    ensures BatchId(WithPredictions(df, outs).value, i) == BatchId(df, i)
  {
    IdNotOutput();
    assert WithPredictions(df, outs).value.rows[i] == PredictedRow(df.rows[i], outs[i]);
    PredictedRowCells(df.rows[i], outs[i]);
  }

  /**
   * A stored batch adds one row per uploaded row, in order, after the existing ones:
   * row i carries the i-th probability and its risk level, and the row's `customerID`,
   * or `BATCH_i` when the upload has no such column.
   */
  lemma BatchStoredRows(df: Frame, outs: seq<Outcome>, modelName: string, now: Timestamp, table: seq<Prediction>)
    requires Labelled(outs, modelName)
    ensures var r := StoreBatch(df, outs, now, table);
      r.response.Ok? ==>
        && |r.table| == |table| + |df.rows| && r.table[..|table|] == table
        && forall i :: 0 <= i < |df.rows| ==>
             var p := r.table[|table| + i];
             && p.churnProbability == outs[i].churnProbability
             && p.riskLevel == Some(RiskLevel(p.churnProbability))
             && p.modelName == Some(modelName) && p.modelVersion == Some(ModelVersion)
             && p.features == Null && p.shapValues == Null
             && ("customerID" in df.columns ==> Cell(df.rows[i], "customerID") == Str(p.customerId))
             && ("customerID" !in df.columns ==> p.customerId == "BATCH_" + NatToString(i))
  {
    var r := StoreBatch(df, outs, now, table);
    if r.response.Ok? {
      var out := WithPredictions(df, outs).value;
      var ds := BatchDrafts(out, outs);
      InsertAllSpec(table, ds, now);
      assert r.table == InsertAll(table, ds, now).value;
      forall i | 0 <= i < |df.rows|
        ensures BatchId(df, i).Str?
        ensures r.table[|table| + i] == StoredRow(BatchDraft(BatchId(df, i), outs[i]), |table| + i + 1, now)
      {
        BatchIdKept(df, outs, i);
        assert ds[i] == BatchDraft(BatchId(out, i), outs[i]);
        assert ds[i].customerId.Some?;
      }
      forall i | 0 <= i < |df.rows|
        ensures var p := r.table[|table| + i];
          && p.churnProbability == outs[i].churnProbability
          && p.riskLevel == Some(RiskLevel(p.churnProbability))
          && p.modelName == Some(modelName) && p.modelVersion == Some(ModelVersion)
          && p.features == Null && p.shapValues == Null
          && ("customerID" in df.columns ==> Cell(df.rows[i], "customerID") == Str(p.customerId))
          && ("customerID" !in df.columns ==> p.customerId == "BATCH_" + NatToString(i))
      {
        StoredBatchRow(BatchId(df, i), outs[i], |table| + i + 1, now);
      }
    }
  }

  /** The stored row of one batch result. */
  lemma StoredBatchRow(id: Value, o: Outcome, n: int, now: Timestamp)
    requires id.Str?
    ensures var p := StoredRow(BatchDraft(id, o), n, now);
      && p.churnProbability == o.churnProbability && p.riskLevel == Some(o.riskLevel)
      && p.modelName == Some(o.modelName) && p.modelVersion == Some(ModelVersion)
      && p.features == Null && p.shapValues == Null && id == Str(p.customerId)
  {
  }

  /**
   * For scored rows, the batch is stored exactly when every row has a text id: a
   * `customerID` column with a missing cell makes the whole commit fail.
   */
  lemma BatchNeedsIds(df: Frame, outs: seq<Outcome>, now: Timestamp, table: seq<Prediction>)
    requires |outs| == |df.rows|
    ensures StoreBatch(df, outs, now, table).response.Ok? <==>
      forall i :: 0 <= i < |df.rows| ==> BatchId(df, i).Str?
  {
    var out := WithPredictions(df, outs).value;
    var ds := BatchDrafts(out, outs);
    InsertAllSpec(table, ds, now);
    forall i | 0 <= i < |df.rows|
      ensures ds[i].customerId.None? <==> !BatchId(df, i).Str?
    {
      BatchIdKept(df, outs, i);
    }
  }

  /**
   * What `load_models` finds on disk: the model file (absent, unreadable or a
   * classifier), the scaler file, the metadata file (absent, unparsable, or its
   * `feature_names` entry if any) and the SHAP explainer the model yields.
   */
  datatype ModelFiles = ModelFiles(
    model: Option<Result<Classifier, string>>,
    scaler: Result<Scaler, string>,
    metadata: Option<Result<Option<seq<string>>, string>>,
    engine: Option<ShapEngine>)

  /** The `Predictor` constructor succeeds: the model and the scaler both load. */
  predicate Constructs(files: ModelFiles) {
    files.model.Some? && files.model.value.Ok? && files.scaler.Ok?
  }

  /** Loading runs to `return True`: the metadata, when present, parses as well. */
  predicate LoadsCleanly(files: ModelFiles) {
    Constructs(files) && (files.metadata.None? || files.metadata.value.Ok?)
  }

  /** The feature names read from the metadata, [] when there are none. */
  function MetadataNames(files: ModelFiles): (r: seq<string>)
    ensures files.metadata.None? || files.metadata.value.Err? ==> r == []
  {
    if files.metadata.Some? && files.metadata.value.Ok? then files.metadata.value.value.GetOr([]) else []
  }

  /** The module-level globals of the prediction routes and `load_models`, which fills them once. */
  class ModelState {
    var predictor: Inference.Predictor?
    var processor: DataProcessing.DataProcessor?
    var scaler: Option<Scaler>
    var explainer: Explainer?
    var featureNames: seq<string>

    /** Nothing is loaded, or the predictor holds a model and the processor and scaler are there. */
    predicate Valid()
      reads this, predictor
    {
      && (predictor == null ==> processor == null && scaler.None? && explainer == null && featureNames == [])
      && (predictor != null ==> processor != null && scaler.Some? && predictor.model.Some?)
    }

    constructor ()
      ensures Valid() && predictor == null
    {
      predictor := null;
      processor := null;
      scaler := None;
      explainer := null;
      featureNames := [];
    }

    /** The loaded objects as values. */
    function Snapshot(): Loaded
      requires Valid() && predictor != null
      reads this, predictor, explainer
    {
      Loaded(predictor.model.value, predictor.modelName, scaler.value,
             if explainer == null then None else Some(explainer.engine))
    }

    /** The globals hold what `files` gives. */
    ghost predicate LoadedFrom(files: ModelFiles)
      requires Constructs(files)
      reads this, predictor, explainer
    {
      && predictor != null && predictor.model == Some(files.model.value.value)
      && predictor.modelName == DefaultModelName
      && scaler == Some(files.scaler.value)
      && featureNames == MetadataNames(files)
      && (explainer != null <==> LoadsCleanly(files) && featureNames != [])
      && (explainer != null ==> explainer.engine == files.engine)
    }

    /**
     * `load_models`: a second call finds the predictor set and answers true. A first call
     * answers true exactly when everything loads; when the model or the scaler fails
     * nothing is set, but an unparsable metadata file leaves the predictor in place.
     */
    method LoadModels(files: ModelFiles) returns (ok: bool)
      requires Valid()
      modifies this
      ensures Valid()
      ensures old(predictor) != null ==> ok && unchanged(this)
      ensures old(predictor) == null ==> (ok <==> LoadsCleanly(files))
      ensures old(predictor) == null && !Constructs(files) ==> unchanged(this)
      ensures old(predictor) == null && Constructs(files) ==>
        && LoadedFrom(files) && fresh(predictor) && fresh(processor) && (explainer != null ==> fresh(explainer))
        && processor.featureNames == []
    {
      if predictor != null {
        return true;
      }
      if files.model.None? || files.model.value.Err? || files.scaler.Err? {
        return false;
      }
      predictor := new Inference.Predictor(Some(files.model.value.value), DefaultModelName);
      processor := new DataProcessing.DataProcessor();
      scaler := Some(files.scaler.value);
      if files.metadata.Some? {
        if files.metadata.value.Err? {
          return false;
        }
        featureNames := files.metadata.value.value.GetOr([]);
      }
      if featureNames != [] {
        explainer := new Explainer(files.engine);
      }
      ok := true;
    }

    /** Engineering, `process_pipeline(fit=False)`, the scaler and `predict_single`. */
    method Score(f: Frame, oneHot: DataProcessing.OneHot) returns (r: Result<Scored, string>)
      requires Valid() && predictor != null
      modifies processor
      ensures r == ScoreOne(Snapshot(), f, oneHot)
      ensures Prepared(f, oneHot).Ok? ==> processor.featureNames == Prepared(f, oneHot).value.featureNames
      ensures Prepared(f, oneHot).Err? ==> processor.featureNames == old(processor.featureNames)
    {
      var engineered := FeatureEngineering.EngineerFeatures(f);
      if engineered.Err? {
        return Err(engineered.error);
      }
      var p := processor.ProcessPipeline(engineered.value, "Churn", oneHot);
      if p.Err? {
        return Err(p.error);
      }
      var rows := scaler.value.transform(p.value.x);
      if rows.Err? {
        return Err(rows.error);
      }
      var outcome := predictor.PredictSingle(rows.value);
      if outcome.Err? {
        return Err(outcome.error);
      }
      r := Ok(Scored(rows.value[0], p.value.featureNames, outcome.value));
    }

    /** The explainer's top features and recommendations for a scored request, when there is one. */
    method ShowExplanation(s: Scored) returns (shown: (seq<FeatureImpact>, seq<string>))
      requires Valid() && predictor != null
      ensures shown == Explained(Snapshot().explainer, s)
    {
      shown := ([], []);
      if explainer != null {
        var e := explainer.ExplainWithRecommendations(s.row, s.names, s.outcome.churnProbability);
        if e.Some? {
          shown := (e.value.topFeatures, e.value.recommendations.value);
        }
      }
    }

    /**
     * `POST /predict`: 503 when the models cannot be loaded, otherwise the answer and
     * the stored row of the request served against what is loaded. The id is taken as
     * written, so a request without `customer_id` ends in a 500 and stores nothing.
     */
    method PredictChurn(db: Database, q: PredictionRequest, files: ModelFiles, env: Env)
      returns (r: Result<PredictionResponse, ApiError>)
      requires Valid()
      modifies this, processor, db`predictions
      ensures Valid()
      ensures old(predictor) == null && !LoadsCleanly(files) ==>
        r == Err(ModelsUnavailable) && db.predictions == old(db.predictions)
      ensures old(predictor) != null || LoadsCleanly(files) ==>
        && predictor != null
        && var s := Serve(Snapshot(), q, env, old(db.predictions), CustomerIdAsWritten);
        && r == s.response && db.predictions == s.table
      ensures q.customerId.None? ==> r.Err? && db.predictions == old(db.predictions)
    {
      var loaded := LoadModels(files);
      if !loaded {
        return Err(ModelsUnavailable);
      }
      var input := FillTotal(q);
      var id := CustomerIdAsWritten(RequestDict(q), env.stamp);
      r := PredictLoaded(db, input, id, env);
      if q.customerId.None? {
        OmittedIdAsWritten(Snapshot(), q, env, old(db.predictions));
      }
    }

    /** The body of `POST /predict` once the models are loaded and the input dict and id are built. */
    method PredictLoaded(db: Database, input: Dict<Value>, id: Value, env: Env)
      returns (r: Result<PredictionResponse, ApiError>)
      requires Valid() && predictor != null
      modifies processor, db`predictions
      ensures var s := Respond(ScoreOne(Snapshot(), RequestFrame(input, id), env.oneHot), Snapshot().explainer,
                               input, id, env.now, env.answeredAt, old(db.predictions));
        r == s.response && db.predictions == s.table
    {
      var scored := Score(RequestFrame(input, id), env.oneHot);
      r := Answer(db, input, id, scored, env.now, env.answeredAt);
    }

    /** The answer once scoring has run: a failure, or the explanation, the row stored and the response. */
    method Answer(db: Database, input: Dict<Value>, id: Value, scored: Result<Scored, string>,
                  now: Timestamp, answeredAt: string)
      returns (r: Result<PredictionResponse, ApiError>)
      requires Valid() && predictor != null
      modifies db`predictions
      ensures var s := Respond(scored, Snapshot().explainer, input, id, now, answeredAt, old(db.predictions));
        r == s.response && db.predictions == s.table
    {
      if scored.Err? {
        return Err(PredictionFailed(scored.error));
      }
      var shown := ShowExplanation(scored.value);
      r := Store(db, Snapshot().explainer, input, id, scored.value, shown, now, answeredAt);
    }

    /** Engineering, `process_pipeline(fit=False)`, the scaler and `predict_batch`. */
    method ScoreRows(df: Frame, oneHot: DataProcessing.OneHot) returns (r: Result<seq<Outcome>, string>)
      requires Valid() && predictor != null
      modifies processor
      ensures r == ScoreAll(Snapshot(), df, oneHot)
    {
      var engineered := FeatureEngineering.EngineerFeatures(df);
      if engineered.Err? {
        return Err(engineered.error);
      }
      var p := processor.ProcessPipeline(engineered.value, "Churn", oneHot);
      if p.Err? {
        return Err(p.error);
      }
      var rows := scaler.value.transform(p.value.x);
      if rows.Err? {
        return Err(rows.error);
      }
      var outcomes := predictor.PredictBatch(rows.value);
      r := Ok(outcomes.value);
      assert r.value == ScoreAll(Snapshot(), df, oneHot).value;
    }

    /**
     * `POST /predict-batch`: 503 when the models cannot be loaded, otherwise the
     * answered frame and the stored rows of the upload served against what is loaded.
     */
    method PredictBatch(db: Database, upload: Result<Frame, string>, files: ModelFiles,
                        oneHot: DataProcessing.OneHot, now: Timestamp)
      returns (r: Result<Frame, ApiError>)
      requires Valid()
      modifies this, processor, db`predictions
      ensures Valid()
      ensures old(predictor) == null && !LoadsCleanly(files) ==>
        r == Err(ModelsUnavailable) && db.predictions == old(db.predictions)
      ensures old(predictor) != null || LoadsCleanly(files) ==>
        && predictor != null
        && var s := ServeBatch(Snapshot(), upload, oneHot, now, old(db.predictions));
        && r == s.response && db.predictions == s.table
    {
      var loaded := LoadModels(files);
      if !loaded {
        return Err(ModelsUnavailable);
      }
      r := PredictBatchLoaded(db, upload, oneHot, now);
    }

    /** The body of `POST /predict-batch` once the models are loaded. */
    method PredictBatchLoaded(db: Database, upload: Result<Frame, string>, oneHot: DataProcessing.OneHot,
                              now: Timestamp)
      returns (r: Result<Frame, ApiError>)
      requires Valid() && predictor != null
      modifies processor, db`predictions
      ensures var s := ServeBatch(Snapshot(), upload, oneHot, now, old(db.predictions));
        r == s.response && db.predictions == s.table
    {
      if upload.Err? {
        return Err(BatchFailed(upload.error));
      }
      var df := upload.value;
      var scored := ScoreRows(df, oneHot);
      if scored.Err? {
        return Err(BatchFailed(scored.error));
      }
      r := StoreRows(db, df, scored.value, now);
    }
  }

  /** `request.dict()` with a missing total set to `monthly_charges * tenure` in place. */
  method FillTotal(q: PredictionRequest) returns (input: Dict<Value>)
    ensures input == RequestDict(WithTotal(q))
  {
    input := RequestDict(q);
    WithTotalDict(q);
    if input[19].1 == Null {
      input := input[19 := ("total_charges", Num(q.monthlyCharges * q.tenure as real))];
    }
    assert input[..19] == RequestDict(WithTotal(q))[..19];
  }

  /** Adding the row, committing, and building the answer. */
  method Store(db: Database, explainer: Option<Option<ShapEngine>>, input: Dict<Value>, id: Value,
               s: Scored, shown: (seq<FeatureImpact>, seq<string>), now: Timestamp, answeredAt: string)
    returns (r: Result<PredictionResponse, ApiError>)
    requires shown == Explained(explainer, s)
    modifies db`predictions
    ensures var rec := Record(explainer, input, id, s, now, answeredAt, old(db.predictions));
      r == rec.response && db.predictions == rec.table
  {
    var draft := SingleDraft(input, id, s, shown);
    var stored := InsertPrediction(db.predictions, draft, now);
    if stored.Err? {
      return Err(PredictionFailed(stored.error));
    }
    db.predictions := stored.value;
    var o := s.outcome;
    r := Ok(PredictionResponse(draft.customerId.value, o.churnPrediction, Round4(o.churnProbability),
                               o.riskLevel, shown.0, shown.1, o.modelName, answeredAt));
  }

  /** The three columns, one row added per result, and the commit. */
  method StoreRows(db: Database, df: Frame, outs: seq<Outcome>, now: Timestamp) returns (r: Result<Frame, ApiError>)
    modifies db`predictions
    ensures var s := StoreBatch(df, outs, now, old(db.predictions));
      r == s.response && db.predictions == s.table
  {
    var out := WithPredictions(df, outs);
    if out.Err? {
      return Err(BatchFailed(out.error));
    }
    var pending := AddRows(out.value, outs);
    var stored := InsertAll(db.predictions, pending, now);
    if stored.Err? {
      return Err(BatchFailed(stored.error));
    }
    db.predictions := stored.value;
    r := Ok(out.value);
  }

  /** The `db.add` loop: one draft per result, its id read from the answered row. */
  method AddRows(out: Frame, outs: seq<Outcome>) returns (pending: seq<PredictionDraft>)
    requires |outs| <= |out.rows|
    ensures pending == BatchDrafts(out, outs)
  {
    pending := [];
    var i := 0;
    while i < |outs|
      invariant 0 <= i <= |outs|
      invariant |pending| == i
      invariant forall j :: 0 <= j < i ==> pending[j] == BatchDraft(BatchId(out, j), outs[j])
    {
      pending := pending + [BatchDraft(BatchId(out, i), outs[i])];
      i := i + 1;
    }
  }

  // ----------------------------------------------- GET /predictions/recent

  datatype RecentList = RecentList(predictions: seq<Dict<Value>>, count: nat)

  /** `GET /predictions/recent`: newest first, at most `limit` of them, with their count. */
  function RecentPredictions(table: seq<Prediction>, limit: int): (r: RecentList)
    ensures r.count == |r.predictions|
    ensures r.count == if limit >= 0 then Min(limit, |table|) else |table|
  {
    var listed := SqlLimit(SortDesc(table, PredictionKey), limit);
    RecentList(seq(|listed|, i requires 0 <= i < |listed| => PredictionToDict(listed[i])), |listed|)
  }

  /**
   * The listed predictions are the newest ones: in descending date order (undated
   * last), each from the table, and none left out is newer than one listed.
   */
  lemma RecentNewestFirst(table: seq<Prediction>, limit: int)
    ensures var listed := SqlLimit(SortDesc(table, PredictionKey), limit);
      && SortedDesc(listed, PredictionKey)
      && (forall i :: 0 <= i < |listed| ==> listed[i] in table)
      && (forall p :: p in table && p !in listed ==>
            forall i :: 0 <= i < |listed| ==> PredictionKey(p) <= PredictionKey(listed[i]))
      && RecentPredictions(table, limit).predictions ==
           seq(|listed|, i requires 0 <= i < |listed| => PredictionToDict(listed[i]))
  {
    SortedPrefix(table, PredictionKey, |SqlLimit(SortDesc(table, PredictionKey), limit)|);
  }
}
