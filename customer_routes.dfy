/**
 * The customer routes: the filtered, paginated customer list, the single-customer
 * view with its latest predictions, and the summary statistics. Each answer is a
 * function of the stored tables and the request parameters; the query is composed
 * by successive filters and evaluated in table order, as SQL without `ORDER BY`.
 */
module CustomerRoutes {
  import opened Wrappers
  import opened Values
  import opened Strings
  import opened Ranking
  import opened Numbers
  import opened Records

  // ------------------------------------------------------------ GET /customers

  /** The query parameters of `GET /customers`. */
  datatype CustomerQuery = CustomerQuery(
    skip: int, limit: int,
    contractType: Option<string>, tenureMin: Option<int>, tenureMax: Option<int>,
    churnStatus: Option<bool>, search: Option<string>)

  /** `skip >= 0` and `1 <= limit <= 100`, checked before the route runs. */
  predicate PagingValid(q: CustomerQuery) {
    q.skip >= 0 && 1 <= q.limit <= 100
  }

  /** Python truthiness of an optional text parameter: given and not empty. */
  predicate Given(s: Option<string>) {
    s.Some? && s.value != ""
  }

  /**
   * SQLite's `column LIKE '%text%'`: the text occurs in the column, ASCII letters
   * compared without case; a NULL column never matches.
   */
  predicate Like(column: Option<string>, text: string) {
    column.Some? && ContainsLower(Lower(column.value), Lower(text))
  }

  // Each condition holds trivially when its parameter is absent.
  predicate ContractPasses(q: CustomerQuery, c: Customer) {
    Given(q.contractType) ==> c.contractType == Some(q.contractType.value)
  }

  predicate MinPasses(q: CustomerQuery, c: Customer) {
    q.tenureMin.Some? ==> c.tenure.Some? && c.tenure.value >= q.tenureMin.value
  }

  predicate MaxPasses(q: CustomerQuery, c: Customer) {
    q.tenureMax.Some? ==> c.tenure.Some? && c.tenure.value <= q.tenureMax.value
  }

  predicate ChurnPasses(q: CustomerQuery, c: Customer) {
    q.churnStatus.Some? ==> c.churnStatus == q.churnStatus.value
  }

  predicate SearchPasses(q: CustomerQuery, c: Customer) {
    Given(q.search) ==> Like(Some(c.customerId), q.search.value) || Like(c.paymentMethod, q.search.value)
  }

  /** The conjunction of every requested condition. */
  predicate Matches(q: CustomerQuery, c: Customer) {
    ContractPasses(q, c) && MinPasses(q, c) && MaxPasses(q, c) && ChurnPasses(q, c) && SearchPasses(q, c)
  }

  /** `query.filter(...)` when `given`, otherwise the query unchanged. */
  function When(given: bool, rows: seq<Customer>, p: Customer -> bool): seq<Customer> {
    if given then Filter(rows, p) else rows
  }

  /** The query after the five optional filters, in the order the route adds them. */
  function Filtered(table: seq<Customer>, q: CustomerQuery): seq<Customer> {
    var byContract := When(Given(q.contractType), table, c => ContractPasses(q, c));
    var byMin := When(q.tenureMin.Some?, byContract, c => MinPasses(q, c));
    var byMax := When(q.tenureMax.Some?, byMin, c => MaxPasses(q, c));
    var byChurn := When(q.churnStatus.Some?, byMax, c => ChurnPasses(q, c));
    When(Given(q.search), byChurn, c => SearchPasses(q, c))
  }

  /** An absent parameter's filter is skipped, which is the same as a filter everything passes. */
  lemma WhenIsFilter(given: bool, rows: seq<Customer>, p: Customer -> bool)
    requires !given ==> forall c :: p(c)
    ensures When(given, rows, p) == Filter(rows, p)
  {
    if !given {
      FilterAll(rows, p);
    }
  }

  /**
   * The filters combine with AND: the composed query keeps, in table order, exactly
   * the rows that meet every requested condition.
   */
  lemma FilteredMatches(table: seq<Customer>, q: CustomerQuery)
    ensures Filtered(table, q) == Filter(table, c => Matches(q, c))
  {
    var p1 := (c: Customer) => ContractPasses(q, c);
    var p2 := (c: Customer) => MinPasses(q, c);
    var p3 := (c: Customer) => MaxPasses(q, c);
    var p4 := (c: Customer) => ChurnPasses(q, c);
    var p5 := (c: Customer) => SearchPasses(q, c);
    var a2 := (c: Customer) => ContractPasses(q, c) && MinPasses(q, c);
    var a3 := (c: Customer) => ContractPasses(q, c) && MinPasses(q, c) && MaxPasses(q, c);
    var a4 := (c: Customer) => ContractPasses(q, c) && MinPasses(q, c) && MaxPasses(q, c) && ChurnPasses(q, c);
    var a5 := (c: Customer) => Matches(q, c);
    WhenIsFilter(Given(q.contractType), table, p1);
    var r1 := Filter(table, p1);
    WhenIsFilter(q.tenureMin.Some?, r1, p2);
    FilterFilter(table, p1, p2, a2);
    var r2 := Filter(table, a2);
    WhenIsFilter(q.tenureMax.Some?, r2, p3);
    FilterFilter(table, a2, p3, a3);
    var r3 := Filter(table, a3);
    WhenIsFilter(q.churnStatus.Some?, r3, p4);
    FilterFilter(table, a3, p4, a4);
    var r4 := Filter(table, a4);
    WhenIsFilter(Given(q.search), r4, p5);
    FilterFilter(table, a4, p5, a5);
  }

  /** `query.offset(skip).limit(limit)`: the rows at positions skip .. skip + limit - 1. */
  function Page<T>(rows: seq<T>, skip: nat, limit: nat): (r: seq<T>)
    ensures |r| == if skip >= |rows| then 0 else Min(limit, |rows| - skip)
    ensures forall i :: 0 <= i < |r| ==> r[i] == rows[skip + i]
  {
    if skip >= |rows| then []
    else if skip + limit >= |rows| then rows[skip..]
    else rows[skip..skip + limit]
  }

  /** The eleven columns each listed customer shows. */
  function CustomerListItem(c: Customer): Dict<Value> {
    [("id", Num(c.id as real)), ("customer_id", Str(c.customerId)),
     ("tenure", if c.tenure.Some? then Num(c.tenure.value as real) else Null),
     ("monthly_charges", OptNum(c.monthlyCharges)), ("total_charges", OptNum(c.totalCharges)),
     ("contract_type", OptText(c.contractType)), ("payment_method", OptText(c.paymentMethod)),
     ("internet_service", OptText(c.internetService)), ("tech_support", Bool(c.techSupport)),
     ("churn_status", Bool(c.churnStatus)), ("created_at", IsoOrNone(c.createdAt))]
  }

  datatype CustomerPage = CustomerPage(customers: seq<Dict<Value>>, total: int, skip: int, limit: int)

  /** `GET /customers`: count the filtered rows, then return one page of them. */
  function GetCustomers(table: seq<Customer>, q: CustomerQuery): Result<CustomerPage, ApiError> {
    if !PagingValid(q) then Err(Unprocessable)
    else
      var rows := Filtered(table, q);
      var page := Page(rows, q.skip, q.limit);
      Ok(CustomerPage(seq(|page|, i requires 0 <= i < |page| => CustomerListItem(page[i])),
                      |rows|, q.skip, q.limit))
  }

  /**
   * Out-of-bounds paging is refused. Otherwise `total` counts every matching row,
   * before paging; the page holds at most `limit` of them, the matching rows from
   * position `skip` on, in table order; and `skip` and `limit` are echoed.
   */
  lemma CustomersPaged(table: seq<Customer>, q: CustomerQuery)
    ensures GetCustomers(table, q).Err? <==> !PagingValid(q)
    ensures GetCustomers(table, q).Err? ==> GetCustomers(table, q).error == Unprocessable
    ensures var r := GetCustomers(table, q); var rows := Filter(table, c => Matches(q, c));
      r.Ok? ==>
        && r.value.total == |rows|
        && r.value.skip == q.skip && r.value.limit == q.limit
        && |r.value.customers| <= q.limit
        && |r.value.customers| == (if q.skip >= |rows| then 0 else Min(q.limit, |rows| - q.skip))
        && forall i :: 0 <= i < |r.value.customers| ==>
             r.value.customers[i] == CustomerListItem(rows[q.skip + i])
  {
    FilteredMatches(table, q);
  }

  /** A row is listed in the count exactly when it is a stored row meeting every condition. */
  lemma CountedRows(table: seq<Customer>, q: CustomerQuery, c: Customer)
    ensures c in Filtered(table, q) <==> c in table && Matches(q, c)
  {
    FilteredMatches(table, q);
    if c in table && Matches(q, c) {
      var i :| 0 <= i < |table| && table[i] == c;
    }
  }

  /** Both tenure bounds are inclusive; a NULL tenure fails either bound. */
  lemma TenureBoundsInclusive(q: CustomerQuery, c: Customer)
    requires q.tenureMin.Some? && q.tenureMax.Some?
    ensures MinPasses(q, c) && MaxPasses(q, c) <==>
      c.tenure.Some? && q.tenureMin.value <= c.tenure.value <= q.tenureMax.value
  {
  }

  // ------------------------------------------------------ GET /customers/{id}

  const CustomerNotFound := ApiError(404, "Customer not found")

  /** The twenty-three columns of the single-customer view. */
  function CustomerDetailDict(c: Customer): Dict<Value> {
    [("id", Num(c.id as real)), ("customer_id", Str(c.customerId)), ("gender", OptText(c.gender)),
     ("senior_citizen", Bool(c.seniorCitizen)), ("partner", Bool(c.partner)),
     ("dependents", Bool(c.dependents)),
     ("tenure", if c.tenure.Some? then Num(c.tenure.value as real) else Null),
     ("phone_service", Bool(c.phoneService)), ("multiple_lines", Bool(c.multipleLines)),
     ("internet_service", OptText(c.internetService)), ("online_security", Bool(c.onlineSecurity)),
     ("online_backup", Bool(c.onlineBackup)), ("device_protection", Bool(c.deviceProtection)),
     ("tech_support", Bool(c.techSupport)), ("streaming_tv", Bool(c.streamingTv)),
     ("streaming_movies", Bool(c.streamingMovies)), ("contract_type", OptText(c.contractType)),
     ("paperless_billing", Bool(c.paperlessBilling)), ("payment_method", OptText(c.paymentMethod)),
     ("monthly_charges", OptNum(c.monthlyCharges)), ("total_charges", OptNum(c.totalCharges)),
     ("churn_status", Bool(c.churnStatus)), ("created_at", IsoOrNone(c.createdAt))]
  }

  datatype CustomerDetail = CustomerDetail(customer: Dict<Value>, predictions: seq<Dict<Value>>)

  /** `filter(customer_id == id).order_by(prediction_date.desc())`. */
  function NewestFirst(preds: seq<Prediction>, id: string): seq<Prediction> {
    SortDesc(Filter(preds, (p: Prediction) => p.customerId == id), PredictionKey)
  }

  /** The index of the first customer with the id, or `|table|`. */
  function FindCustomer(table: seq<Customer>, id: string): (i: nat)
    ensures i <= |table|
    ensures i < |table| ==> table[i].customerId == id
    ensures forall j :: 0 <= j < i ==> table[j].customerId != id
  {
    if table == [] then 0
    else if table[0].customerId == id then 0
    else
      var i := 1 + FindCustomer(table[1..], id);
      assert forall j :: 1 <= j < i ==> table[j] == table[1..][j - 1];
      i
  }

  /** `GET /customers/{id}`: the customer, then at most five of its predictions, newest first. */
  function GetCustomer(table: seq<Customer>, preds: seq<Prediction>, id: string): Result<CustomerDetail, ApiError> {
    var i := FindCustomer(table, id);
    if i == |table| then Err(CustomerNotFound)
    else
      var shown := SliceTo(NewestFirst(preds, id), 5);
      Ok(CustomerDetail(CustomerDetailDict(table[i]),
                        seq(|shown|, k requires 0 <= k < |shown| => PredictionToDict(shown[k]))))
  }

  /** An unknown id gives 404, and only an unknown id. */
  lemma CustomerNotFoundIff(table: seq<Customer>, preds: seq<Prediction>, id: string)
    ensures GetCustomer(table, preds, id).Err? <==> forall c :: c in table ==> c.customerId != id
    ensures GetCustomer(table, preds, id).Err? ==> GetCustomer(table, preds, id).error == CustomerNotFound
  {
    if FindCustomer(table, id) == |table| {
      forall c | c in table
        ensures c.customerId != id
      {
        var j :| 0 <= j < |table| && table[j] == c;
      }
    }
  }

  /**
   * A known id shows that customer's row and the projections of its first five
   * predictions in newest-first order (all of them when it has fewer).
   */
  lemma CustomerShown(table: seq<Customer>, preds: seq<Prediction>, id: string)
    ensures var r := GetCustomer(table, preds, id); var newest := NewestFirst(preds, id);
      r.Ok? ==>
        && Get(r.value.customer, "customer_id") == Some(Str(id))
        && |r.value.predictions| == Min(5, |newest|)
        && (forall k :: 0 <= k < |r.value.predictions| ==> r.value.predictions[k] == PredictionToDict(newest[k]))
  {
    var i := FindCustomer(table, id);
    if i < |table| {
      var d := CustomerDetailDict(table[i]);
      assert |d[0].0| == 2 && |d[1].0| == 11;
      GetAt(d, 1);
    }
  }

  /**
   * The predictions listed are the customer's own, newest first, and none of the
   * customer's predictions left out is newer than any listed one.
   */
  lemma NewestFirstTop(preds: seq<Prediction>, id: string, n: nat)
    ensures var newest := NewestFirst(preds, id); var shown := SliceTo(newest, n);
      && (forall k :: 0 <= k < |shown| ==> shown[k] in preds && shown[k].customerId == id)
      && (forall j, k :: 0 <= j < k < |shown| ==> PredictionKey(shown[j]) >= PredictionKey(shown[k]))
      && (forall p :: p in preds && p.customerId == id && p !in shown ==>
            forall k :: 0 <= k < |shown| ==> PredictionKey(p) <= PredictionKey(shown[k]))
  {
    var own := Filter(preds, (p: Prediction) => p.customerId == id);
    var shown := SliceTo(NewestFirst(preds, id), n);
    SortedPrefix(own, PredictionKey, |shown|);
    forall p | p in preds && p.customerId == id
      ensures p in own
    {
      var i :| 0 <= i < |preds| && preds[i] == p;
    }
  }

  // ---------------------------------------------- GET /customers/stats/summary

  /** A nullable numeric column read row by row, in table order. */
  function ColumnOf(table: seq<Customer>, col: Customer -> Option<real>): (r: seq<Option<real>>)
    ensures |r| == |table| && forall i :: 0 <= i < |table| ==> r[i] == col(table[i])
  {
    seq(|table|, i requires 0 <= i < |table| => col(table[i]))
  }

  /**
   * The values of a nullable numeric column as SQL's `AVG` sees them: the non-NULL
   * cells, each once, in table order.
   */
  function Known(table: seq<Customer>, col: Customer -> Option<real>): (xs: seq<real>)
    ensures xs == Somes(ColumnOf(table, col))
    ensures |xs| <= |table|
    ensures forall k :: 0 <= k < |xs| ==> exists c :: c in table && col(c) == Some(xs[k])
    decreases |table|
  {
    if table == [] then []
    else
      var rest := Known(table[1..], col);
      assert forall c :: c in table[1..] ==> c in table;
      assert ColumnOf(table, col) == [col(table[0])] + ColumnOf(table[1..], col);
      if col(table[0]).Some? then [col(table[0]).value] + rest else rest
  }

  function Sum(xs: seq<real>): real {
    if xs == [] then 0.0 else xs[0] + Sum(xs[1..])
  }

  /** `func.avg(column).scalar() or 0`: the mean of the known values, or 0 when there are none. */
  function AvgOrZero(xs: seq<real>): real {
    if xs == [] then 0.0 else Sum(xs) / |xs| as real
  }

  function TenureColumn(c: Customer): Option<real> {
    if c.tenure.Some? then Some(c.tenure.value as real) else None
  }

  function MonthlyColumn(c: Customer): Option<real> { c.monthlyCharges }

  /** `{row.key: row.count for row in group_by(key)}`: each key present, with its number of rows. */
  function Distribution(table: seq<Customer>, key: Customer -> Option<string>): map<Option<string>, nat> {
    map k | k in Present(table, key) :: GroupSize(table, key, k)
  }

  /** The values a column holds, NULL included. */
  function Present(table: seq<Customer>, key: Customer -> Option<string>): set<Option<string>> {
    set c | c in table :: key(c)
  }

  /** `COUNT(id)` of the group whose column holds `k`. */
  function GroupSize(table: seq<Customer>, key: Customer -> Option<string>, k: Option<string>): nat {
    |Filter(table, Holds(key, k))|
  }

  /** Whether a row's column holds `k`. */
  function Holds(key: Customer -> Option<string>, k: Option<string>): Customer -> bool {
    c => key(c) == k
  }

  datatype CustomerStats = CustomerStats(
    totalCustomers: int, churnedCustomers: int, churnRate: real,
    avgTenure: real, avgMonthlyCharges: real,
    contractDistribution: map<Option<string>, nat>, internetDistribution: map<Option<string>, nat>)

  function Churned(table: seq<Customer>): seq<Customer> {
    Filter(table, (c: Customer) => c.churnStatus)
  }

  /** `GET /customers/stats/summary`. */
  function CustomerSummary(table: seq<Customer>): CustomerStats {
    var total := |table|;
    var churned := |Churned(table)|;
    CustomerStats(
      total, churned,
      if total > 0 then Round4(churned as real / total as real) else 0.0,
      Round2(AvgOrZero(Known(table, TenureColumn))),
      Round2(AvgOrZero(Known(table, MonthlyColumn))),
      Distribution(table, (c: Customer) => c.contractType),
      Distribution(table, (c: Customer) => c.internetService))
  }

  lemma {:induction false} SumBounds(xs: seq<real>, lo: real, hi: real)
    requires forall k :: 0 <= k < |xs| ==> lo <= xs[k] <= hi
    ensures lo * |xs| as real <= Sum(xs) <= hi * |xs| as real
  {
    if xs != [] {
      SumBounds(xs[1..], lo, hi);
    }
  }

  /** A mean lies between the least and the greatest value averaged. */
  lemma MeanBetween(xs: seq<real>, lo: real, hi: real)
    requires xs != []
    requires forall k :: 0 <= k < |xs| ==> lo <= xs[k] <= hi
    ensures lo <= AvgOrZero(xs) <= hi
  {
    SumBounds(xs, lo, hi);
    var n := |xs| as real;
    var m := Sum(xs) / n;
    assert m * n == Sum(xs);
    assert m * n >= lo * n;
    assert m * n <= hi * n;
  }

  /**
   * The churned count never exceeds the total, and the churn rate is their quotient to
   * four decimals when there are customers and 0 otherwise, so it lies in [0, 1].
   */
  lemma ChurnRateUnit(table: seq<Customer>)
    ensures var s := CustomerSummary(table);
      && s.totalCustomers == |table|
      && 0 <= s.churnedCustomers <= s.totalCustomers
      && (s.totalCustomers == 0 ==> s.churnRate == 0.0)
      && (s.totalCustomers > 0 ==>
            -0.00005 <= s.churnRate - s.churnedCustomers as real / s.totalCustomers as real <= 0.00005)
      && 0.0 <= s.churnRate <= 1.0
  {
    if |table| > 0 {
      MeanUnit(|Churned(table)| as real, |table|);
      Round4Unit(|Churned(table)| as real / |table| as real);
    }
  }

  /**
   * The average tenure is 0 when no customer has a tenure; otherwise, when every
   * tenure lies in [lo, hi], so does the average before its rounding to two decimals.
   */
  lemma AverageTenureBetween(table: seq<Customer>, lo: int, hi: int)
    requires forall c :: c in table && c.tenure.Some? ==> lo <= c.tenure.value <= hi
    ensures (forall c :: c in table ==> c.tenure.None?) ==> CustomerSummary(table).avgTenure == 0.0
    ensures Known(table, TenureColumn) != [] ==>
      lo as real - 0.005 <= CustomerSummary(table).avgTenure <= hi as real + 0.005
  {
    var xs := Known(table, TenureColumn);
    if xs != [] {
      forall k | 0 <= k < |xs|
        ensures lo as real <= xs[k] <= hi as real
      {
        var c :| c in table && TenureColumn(c) == Some(xs[k]);
      }
      MeanBetween(xs, lo as real, hi as real);
    }
    if forall c :: c in table ==> c.tenure.None? {
      KnownNone(table, TenureColumn);
      Round2Zero();
    }
  }

  /** A column that is NULL in every row has no known values. */
  lemma {:induction false} KnownNone(table: seq<Customer>, col: Customer -> Option<real>)
    requires forall c :: c in table ==> col(c).None?
    ensures Known(table, col) == []
    decreases |table|
  {
    if table != [] {
      assert forall c :: c in table[1..] ==> c in table;
      KnownNone(table[1..], col);
    }
  }

  /**
   * Each distribution has one key per value present in the column (NULL included)
   * and maps it to the number of rows holding that value.
   */
  lemma DistributionCounts(table: seq<Customer>, key: Customer -> Option<string>)
    ensures forall k :: k in Distribution(table, key) <==> exists c :: c in table && key(c) == k
    ensures forall c :: c in table ==>
      key(c) in Distribution(table, key) && Distribution(table, key)[key(c)] >= 1
    ensures forall k :: k in Distribution(table, key) ==> Distribution(table, key)[k] == CountIf(table, Holds(key, k))
  {
    forall c | c in table
      ensures GroupSize(table, key, key(c)) >= 1
      ensures GroupSize(table, key, key(c)) == CountIf(table, Holds(key, key(c)))
    {
      var i :| 0 <= i < |table| && table[i] == c;
      FilterAt(table, Holds(key, key(c)), i);
    }
  }
}
