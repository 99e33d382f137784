/**
 * Derived churn features. Each step copies the frame and assigns new columns, so
 * each is a function from frame to frame; a step that pandas would abort with an
 * exception yields `Err`.
 */
module FeatureEngineering {
  import opened Wrappers
  import opened Values
  import opened Strings
  import opened Frames

  // ---------------------------------------------------------------- charges

  const ChargeColumns := ["avg_monthly_charges", "charge_increase", "charge_per_tenure"]

  /** The three charge cells of one row; a text or missing operand raises. */
  function ChargeRow(r: Row): Result<Row, string> {
    var divisor :- Plus(Cell(r, "tenure"), Num(1.0));
    var average :- Over(Cell(r, "TotalCharges"), divisor);
    var increase :- Greater(Cell(r, "MonthlyCharges"), average);
    var perTenure :- Over(Cell(r, "MonthlyCharges"), divisor);
    Ok(r["avg_monthly_charges" := average]["charge_increase" := Flag(increase)]
        ["charge_per_tenure" := perTenure])
  }

  lemma ChargeRowAssigned(r: Row)
    requires ChargeRow(r).Ok?
    ensures RowAssigned(r, ChargeRow(r).value, {}, ChargeColumns)
  {
  }

  /**
   * For numeric charges and a non-negative tenure t, the averages divide by t + 1 and
   * `charge_increase` says the monthly charge exceeds the average.
   */
  lemma ChargeRowValues(r: Row, t: real, monthly: real, total: real)
    requires Cell(r, "tenure") == Num(t) && t >= 0.0
    requires Cell(r, "MonthlyCharges") == Num(monthly) && Cell(r, "TotalCharges") == Num(total)
    ensures ChargeRow(r).Ok?
    ensures Cell(ChargeRow(r).value, "avg_monthly_charges") == Num(total / (t + 1.0))
    ensures Cell(ChargeRow(r).value, "charge_per_tenure") == Num(monthly / (t + 1.0))
    ensures Cell(ChargeRow(r).value, "charge_increase") == Flag(monthly > total / (t + 1.0))
  {
    assert "avg_monthly_charges"[0] != "charge_increase"[0] == "charge_per_tenure"[0];
    assert "charge_increase"[7] != "charge_per_tenure"[7];
  }

  /** `create_charge_features`: needs `tenure` once both charge columns are present. */
  function ChargeFeatures(f: Frame): (r: Result<Frame, string>)
    ensures !("MonthlyCharges" in f.columns && "TotalCharges" in f.columns) ==> r == Ok(f)
    ensures "MonthlyCharges" in f.columns && "TotalCharges" in f.columns && "tenure" !in f.columns ==> r.Err?
  {
    if "MonthlyCharges" in f.columns && "TotalCharges" in f.columns then
      if "tenure" !in f.columns then Err("'tenure'")
      else
        var rows :- MapRows(f.rows, ChargeRow);
        Ok(Frame(AddColumns(f.columns, ChargeColumns), rows))
    else Ok(f)
  }

  /** With both charge columns and `tenure`, the step succeeds iff every row does, and adds its three columns. */
  lemma ChargeFeaturesShape(f: Frame)
    requires "MonthlyCharges" in f.columns && "TotalCharges" in f.columns && "tenure" in f.columns
    ensures ChargeFeatures(f).Ok? <==> forall i :: 0 <= i < |f.rows| ==> ChargeRow(f.rows[i]).Ok?
    ensures ChargeFeatures(f).Ok? ==> Assigned(f, ChargeFeatures(f).value, {}, ChargeColumns)
  {
    var mapped := MapRows(f.rows, ChargeRow);
    if mapped.Ok? {
      DropNothing(f.columns);
      var g := ChargeFeatures(f).value;
      assert g == Frame(AddColumns(f.columns, ChargeColumns), mapped.value);
      forall i | 0 <= i < |f.rows|
        ensures RowAssigned(f.rows[i], g.rows[i], {}, ChargeColumns)
      {
        assert g.rows[i] == ChargeRow(f.rows[i]).value;
        ChargeRowAssigned(f.rows[i]);
      }
    }
  }

  // --------------------------------------------------------------- services

  const ServiceColumns := ["PhoneService", "MultipleLines", "OnlineSecurity", "OnlineBackup",
                           "DeviceProtection", "TechSupport", "StreamingTV", "StreamingMovies"]
  const SecurityColumns := ["OnlineSecurity", "OnlineBackup", "DeviceProtection", "TechSupport"]

  /** What one column adds to a running count: a 'Yes' test on text, the value itself otherwise. */
  function ServiceTerm(r: Row, c: string, text: set<string>): Result<Option<real>, string> {
    if c in text then Ok(Some(if Cell(r, c) == Str("Yes") then 1.0 else 0.0))
    else Numeric(Cell(r, c))
  }

  /** `total = 0; for c in cols: total += term(c)`, with NaN (None) absorbing. */
  function Tally(r: Row, cols: seq<string>, text: set<string>): Result<Option<real>, string> {
    if cols == [] then Ok(Some(0.0))
    else
      var acc :- Tally(r, cols[..|cols| - 1], text);
      var term :- ServiceTerm(r, cols[|cols| - 1], text);
      Ok(if acc.Some? && term.Some? then Some(acc.value + term.value) else None)
  }

  /** The number of columns among `cols` whose cell is 'Yes'. */
  function YesCount(r: Row, cols: seq<string>): (n: nat)
    ensures n <= |cols|
  {
    if cols == [] then 0
    else YesCount(r, cols[..|cols| - 1]) + (if Cell(r, cols[|cols| - 1]) == Str("Yes") then 1 else 0)
  }

  /** Over text columns the tally is the number of 'Yes' cells. */
  lemma {:induction false} TallyCountsYes(r: Row, cols: seq<string>, text: set<string>)
    requires forall c :: c in cols ==> c in text
    ensures Tally(r, cols, text) == Ok(Some(YesCount(r, cols) as real))
  {
    if cols != [] {
      TallyCountsYes(r, cols[..|cols| - 1], text);
    }
  }

  lemma {:induction false} YesCountPositive(r: Row, cols: seq<string>)
    ensures YesCount(r, cols) > 0 <==> exists c :: c in cols && Cell(r, c) == Str("Yes")
  {
    if cols != [] {
      YesCountPositive(r, cols[..|cols| - 1]);
      var last := cols[|cols| - 1];
      assert forall c :: c in cols <==> c in cols[..|cols| - 1] || c == last by {
        assert cols == cols[..|cols| - 1] + [last];
      }
    }
  }

  /** The service columns a frame holds and which of them hold text. */
  datatype ServiceLayout = ServiceLayout(services: seq<string>, security: seq<string>,
                                         text: set<string>, internet: bool)

  function Layout(f: Frame): (l: ServiceLayout)
    ensures forall c :: c in l.services <==> c in ServiceColumns && c in f.columns
    ensures forall c :: c in l.security <==> c in SecurityColumns && c in f.columns
    ensures forall c :: c in l.text <==> c in l.services && IsText(f, c)
  {
    var services := Present(f.columns, ServiceColumns);
    ServiceLayout(services, Present(f.columns, SecurityColumns),
                  set c | c in services && IsText(f, c), "InternetService" in f.columns)
  }

  function ServiceAdded(l: ServiceLayout): seq<string> {
    ["total_services"] + (if l.internet then ["has_internet"] else [])
      + (if l.security != [] then ["has_security"] else [])
  }

  /** The service cells of one row: the count, then the two indicators. */
  function ServiceRow(l: ServiceLayout, r: Row): Result<Row, string> {
    var total :- Tally(r, l.services, l.text);
    var withTotal := r["total_services" := FromNumeric(total)];
    var withInternet :=
      if l.internet then withTotal["has_internet" := Flag(Cell(r, "InternetService") != Str("No"))]
      else withTotal;
    if l.security == [] then Ok(withInternet)
    else
      var secured :- Tally(r, l.security, l.text);
      Ok(withInternet["has_security" := Flag(secured.Some? && secured.value > 0.0)])
  }

  lemma ServiceRowAssigned(l: ServiceLayout, r: Row)
    requires ServiceRow(l, r).Ok?
    ensures RowAssigned(r, ServiceRow(l, r).value, {}, ServiceAdded(l))
  {
  }

  /** `create_service_features`: nothing happens unless a service column exists. */
  function ServiceFeatures(f: Frame): (r: Result<Frame, string>)
    ensures Layout(f).services == [] ==> r == Ok(f)
  {
    var l := Layout(f);
    if l.services == [] then Ok(f)
    else
      var rows :- MapRows(f.rows, r => ServiceRow(l, r));
      Ok(Frame(AddColumns(f.columns, ServiceAdded(l)), rows))
  }

  /** With a service column, the step succeeds iff every row does, and rewrites each row with `ServiceRow`. */
  lemma ServiceFeaturesShape(f: Frame, l: ServiceLayout)
    requires l == Layout(f) && l.services != []
    ensures ServiceFeatures(f).Ok? <==> forall i :: 0 <= i < |f.rows| ==> ServiceRow(l, f.rows[i]).Ok?
    ensures ServiceFeatures(f).Ok? ==> Assigned(f, ServiceFeatures(f).value, {}, ServiceAdded(l))
    ensures ServiceFeatures(f).Ok? ==> forall i :: 0 <= i < |f.rows| ==>
      ServiceFeatures(f).value.rows[i] == ServiceRow(l, f.rows[i]).value
  {
    var g := r => ServiceRow(l, r);
    var mapped := MapRows(f.rows, g);
    assert forall i :: 0 <= i < |f.rows| ==> g(f.rows[i]) == ServiceRow(l, f.rows[i]);
    if mapped.Ok? {
      DropNothing(f.columns);
      var h := ServiceFeatures(f).value;
      assert h.rows == mapped.value;
      forall i | 0 <= i < |f.rows|
        ensures RowAssigned(f.rows[i], h.rows[i], {}, ServiceAdded(l))
      {
        assert h.rows[i] == ServiceRow(l, f.rows[i]).value;
        ServiceRowAssigned(l, f.rows[i]);
      }
    }
  }

  /**
   * With text service columns, `total_services` counts the 'Yes' answers (so it lies
   * in 0..8), `has_internet` is 1 unless InternetService is 'No', and `has_security`
   * is 1 exactly when a security column says 'Yes'.
   */
  lemma ServiceRowMeaning(l: ServiceLayout, r: Row)
    requires forall c :: c in l.services ==> c in l.text
    requires forall c :: c in l.security ==> c in l.services
    ensures ServiceRow(l, r).Ok?
    ensures Cell(ServiceRow(l, r).value, "total_services") == Num(YesCount(r, l.services) as real)
    ensures YesCount(r, l.services) <= |l.services|
    ensures l.internet ==>
      Cell(ServiceRow(l, r).value, "has_internet") == Flag(Cell(r, "InternetService") != Str("No"))
    ensures l.security != [] ==>
      Cell(ServiceRow(l, r).value, "has_security")
        == Flag(exists c :: c in l.security && Cell(r, c) == Str("Yes"))
  {
    TallyCountsYes(r, l.services, l.text);
    TallyCountsYes(r, l.security, l.text);
    YesCountPositive(r, l.security);
    assert "total_services"[0] != "has_internet"[0] == "has_security"[0];
    assert "has_internet"[4] != "has_security"[4];
  }

  lemma LayoutBound(f: Frame)
    ensures |Layout(f).services| <= 8
  {
  }

  // --------------------------------------------------------------- contract

  function ContractAdded(contract: bool, payment: bool): seq<string> {
    (if contract then ["is_month_to_month", "has_long_contract"] else [])
      + (if payment then ["is_auto_payment", "is_electronic_check"] else [])
  }

  /** A row is never both month-to-month and on a long contract. */
  lemma ContractFlagsExclusive(r: Row)
    ensures !(Flag(Cell(r, "Contract") == Str("Month-to-month")) == Num(1.0)
              && Flag(Cell(r, "Contract") == Str("One year") || Cell(r, "Contract") == Str("Two year"))
                 == Num(1.0))
  {
  }

  /** `str.contains('automatic', case=False, na=False)`. */
  predicate AutomaticPayment(v: Value) {
    v.Str? && ContainsLower(v.s, "automatic")
  }

  /** The plan cells when `Contract` exists, then the payment cells when `PaymentMethod` exists. */
  function ContractRow(contract: bool, payment: bool, r: Row): Row {
    var plan := Cell(r, "Contract");
    var payMethod := Cell(r, "PaymentMethod");
    var planned :=
      if contract then
        r["is_month_to_month" := Flag(plan == Str("Month-to-month"))]
         ["has_long_contract" := Flag(plan == Str("One year") || plan == Str("Two year"))]
      else r;
    if payment then
      planned["is_auto_payment" := Flag(AutomaticPayment(payMethod))]
             ["is_electronic_check" := Flag(payMethod == Str("Electronic check"))]
    else planned
  }

  lemma ContractRowAssigned(contract: bool, payment: bool, r: Row)
    ensures RowAssigned(r, ContractRow(contract, payment, r), {}, ContractAdded(contract, payment))
  {
  }

  /** The plan indicators, when the frame has a `Contract` column. */
  lemma ContractPlanValues(payment: bool, r: Row)
    ensures Cell(ContractRow(true, payment, r), "is_month_to_month")
      == Flag(Cell(r, "Contract") == Str("Month-to-month"))
    ensures Cell(ContractRow(true, payment, r), "has_long_contract")
      == Flag(Cell(r, "Contract") == Str("One year") || Cell(r, "Contract") == Str("Two year"))
  {
    assert "is_month_to_month"[0] != "has_long_contract"[0];
    assert "is_auto_payment"[0] != "has_long_contract"[0];
    assert "is_electronic_check"[0] != "has_long_contract"[0];
    assert "is_month_to_month"[3] != "is_auto_payment"[3];
    assert "is_month_to_month"[3] != "is_electronic_check"[3];
  }

  /** The payment indicators, when the frame has a `PaymentMethod` column. */
  lemma ContractPaymentValues(contract: bool, r: Row)
    ensures Cell(ContractRow(contract, true, r), "is_auto_payment")
      == Flag(AutomaticPayment(Cell(r, "PaymentMethod")))
    ensures Cell(ContractRow(contract, true, r), "is_electronic_check")
      == Flag(Cell(r, "PaymentMethod") == Str("Electronic check"))
  {
    assert "is_auto_payment"[3] != "is_electronic_check"[3];
  }

  /** An automatic payment method is never the electronic check. */
  lemma PaymentFlagsExclusive(v: Value)
    ensures !(AutomaticPayment(v) && v == Str("Electronic check"))
  {
    if v == Str("Electronic check") {
      NotContainsLower(v.s, "automatic");
    }
  }

  /** `.str` needs text: a column with values but no text raises. */
  predicate StrAccessorFails(f: Frame, c: string) {
    !IsText(f, c) && exists i :: 0 <= i < |f.rows| && Cell(f.rows[i], c) != Null
  }

  /** `create_contract_features`. */
  function ContractFeatures(f: Frame): (r: Result<Frame, string>)
    ensures r.Err? <==> "PaymentMethod" in f.columns && StrAccessorFails(f, "PaymentMethod")
  {
    if "PaymentMethod" in f.columns && StrAccessorFails(f, "PaymentMethod") then
      Err("Can only use .str accessor with string values!")
    else
      var contract := "Contract" in f.columns;
      var payment := "PaymentMethod" in f.columns;
      Ok(Frame(AddColumns(f.columns, ContractAdded(contract, payment)), ContractRows(contract, payment, f.rows)))
  }

  function ContractRows(contract: bool, payment: bool, rows: seq<Row>): (r: seq<Row>)
    ensures |r| == |rows|
    ensures forall i :: 0 <= i < |rows| ==> r[i] == ContractRow(contract, payment, rows[i])
  {
    if rows == [] then []
    else [ContractRow(contract, payment, rows[0])] + ContractRows(contract, payment, rows[1..])
  }

  /** The contract step rewrites each row with `ContractRow` and touches nothing else. */
  lemma ContractFeaturesShape(f: Frame)
    requires ContractFeatures(f).Ok?
    ensures Assigned(f, ContractFeatures(f).value, {},
                     ContractAdded("Contract" in f.columns, "PaymentMethod" in f.columns))
    ensures forall i :: 0 <= i < |f.rows| ==>
      ContractFeatures(f).value.rows[i] == ContractRow("Contract" in f.columns, "PaymentMethod" in f.columns, f.rows[i])
  {
    DropNothing(f.columns);
    var contract := "Contract" in f.columns;
    var payment := "PaymentMethod" in f.columns;
    var g := ContractFeatures(f).value;
    forall i | 0 <= i < |f.rows|
      ensures RowAssigned(f.rows[i], g.rows[i], {}, ContractAdded(contract, payment))
    {
      assert g.rows[i] == ContractRow(contract, payment, f.rows[i]);
      ContractRowAssigned(contract, payment, f.rows[i]);
    }
  }

  // ----------------------------------------------------------------- tenure

  const TenureColumns := ["tenure_0-1 year", "tenure_1-2 years", "tenure_2-4 years", "tenure_4+ years"]

  /** `pd.cut(bins=[0, 12, 24, 48, 72])`: right-closed intervals, 0 and values past 72 excluded. */
  function TenureBucket(t: Value): (r: Result<Option<nat>, string>)
    ensures t.Num? ==> r.Ok?
    ensures t.Num? ==> (r.value.None? <==> t.x <= 0.0 || t.x > 72.0)
    ensures t.Num? ==> (r.value == Some(0) <==> 0.0 < t.x <= 12.0)
    ensures t.Num? ==> (r.value == Some(1) <==> 12.0 < t.x <= 24.0)
    ensures t.Num? ==> (r.value == Some(2) <==> 24.0 < t.x <= 48.0)
    ensures t.Num? ==> (r.value == Some(3) <==> 48.0 < t.x <= 72.0)
    ensures r.Ok? && r.value.Some? ==> r.value.value < 4
  {
    var x :- Numeric(t);
    if x.None? then Ok(None)
    else if x.value <= 0.0 then Ok(None)
    else if x.value <= 12.0 then Ok(Some(0))
    else if x.value <= 24.0 then Ok(Some(1))
    else if x.value <= 48.0 then Ok(Some(2))
    else if x.value <= 72.0 then Ok(Some(3))
    else Ok(None)
  }

  /** The four indicator cells of one row, replacing any `tenure_group` cell. */
  function TenureRow(r: Row): (res: Result<Row, string>)
    ensures res.Ok? <==> TenureBucket(Cell(r, "tenure")).Ok?
  {
    var bucket :- TenureBucket(Cell(r, "tenure"));
    Ok((r - {"tenure_group"})[TenureColumns[0] := Bool(bucket == Some(0))]
                             [TenureColumns[1] := Bool(bucket == Some(1))]
                             [TenureColumns[2] := Bool(bucket == Some(2))]
                             [TenureColumns[3] := Bool(bucket == Some(3))])
  }

  lemma TenureRowAssigned(r: Row)
    requires TenureRow(r).Ok?
    ensures RowAssigned(r, TenureRow(r).value, {"tenure_group"}, TenureColumns)
  {
  }

  /** The k-th indicator is set exactly when the tenure falls into the k-th bucket. */
  lemma TenureRowValues(r: Row)
    ensures TenureRow(r).Ok? ==> forall k :: 0 <= k < 4 ==>
      Cell(TenureRow(r).value, TenureColumns[k]) == Bool(TenureBucket(Cell(r, "tenure")).value == Some(k))
  {
    assert forall j, k :: 0 <= j < k < 4 ==> TenureColumns[j][7] != TenureColumns[k][7];
  }

  /** `create_tenure_groups`: the bucket column is replaced by its four indicator columns. */
  function TenureGroups(f: Frame): (r: Result<Frame, string>)
    ensures "tenure" !in f.columns ==> r == Ok(f)
  {
    if "tenure" !in f.columns then Ok(f)
    else
      var rows :- MapRows(f.rows, TenureRow);
      Ok(Frame(AddColumns(DropColumns(f.columns, {"tenure_group"}), TenureColumns), rows))
  }

  /** With a tenure column, the step succeeds iff every row does, and rewrites each row with `TenureRow`. */
  lemma TenureGroupsShape(f: Frame)
    requires "tenure" in f.columns
    ensures TenureGroups(f).Ok? <==> forall i :: 0 <= i < |f.rows| ==> TenureRow(f.rows[i]).Ok?
    ensures TenureGroups(f).Ok? ==> Assigned(f, TenureGroups(f).value, {"tenure_group"}, TenureColumns)
    ensures TenureGroups(f).Ok? ==> forall i :: 0 <= i < |f.rows| ==>
      TenureGroups(f).value.rows[i] == TenureRow(f.rows[i]).value
  {
    var mapped := MapRows(f.rows, TenureRow);
    if mapped.Ok? {
      var g := TenureGroups(f).value;
      assert g.rows == mapped.value;
      forall i | 0 <= i < |f.rows|
        ensures RowAssigned(f.rows[i], g.rows[i], {"tenure_group"}, TenureColumns)
      {
        assert g.rows[i] == TenureRow(f.rows[i]).value;
        TenureRowAssigned(f.rows[i]);
      }
    }
  }

  /** Each tenure in (0, 72] sets exactly one indicator; any other tenure sets none. */
  lemma TenureIndicators(r: Row, t: real)
    requires Cell(r, "tenure") == Num(t)
    ensures TenureRow(r).Ok?
    ensures 0.0 < t <= 72.0 ==>
      exists k :: 0 <= k < 4 && Cell(TenureRow(r).value, TenureColumns[k]) == Bool(true)
        && forall j :: 0 <= j < 4 && j != k ==> Cell(TenureRow(r).value, TenureColumns[j]) == Bool(false)
    ensures (t <= 0.0 || t > 72.0) ==>
      forall k :: 0 <= k < 4 ==> Cell(TenureRow(r).value, TenureColumns[k]) == Bool(false)
  {
    TenureRowValues(r);
    if 0.0 < t <= 72.0 {
      var k := TenureBucket(Num(t)).value.value;
      assert Cell(TenureRow(r).value, TenureColumns[k]) == Bool(true);
    }
  }

  // ------------------------------------------------------------ interaction

  function InteractionAdded(product: bool, flags: bool): seq<string> {
    (if product then ["tenure_charges_interaction"] else []) + (if flags then ["risky_customer"] else [])
  }

  /** The interaction cells of one row, for whichever of the two source pairs exist. */
  function InteractionRow(product: bool, flags: bool, r: Row): Result<Row, string> {
    var withProduct :-
      if product then
        var p :- Times(Cell(r, "tenure"), Cell(r, "MonthlyCharges"));
        Ok(r["tenure_charges_interaction" := p])
      else Ok(r);
    Ok(if flags then
         withProduct["risky_customer" := Flag(Cell(r, "is_month_to_month") == Num(1.0)
                                              && Cell(r, "is_electronic_check") == Num(1.0))]
       else withProduct)
  }

  lemma InteractionRowAssigned(product: bool, flags: bool, r: Row)
    requires InteractionRow(product, flags, r).Ok?
    ensures RowAssigned(r, InteractionRow(product, flags, r).value, {}, InteractionAdded(product, flags))
  {
  }

  /** `risky_customer` is 1 exactly for month-to-month customers paying by electronic check. */
  lemma RiskyCustomer(product: bool, r: Row)
    requires InteractionRow(product, true, r).Ok?
    ensures Cell(InteractionRow(product, true, r).value, "risky_customer")
      == Flag(Cell(r, "is_month_to_month") == Num(1.0) && Cell(r, "is_electronic_check") == Num(1.0))
  {
  }

  /** `create_interaction_features`. */
  function InteractionFeatures(f: Frame): Result<Frame, string> {
    var product := "tenure" in f.columns && "MonthlyCharges" in f.columns;
    var flags := "is_month_to_month" in f.columns && "is_electronic_check" in f.columns;
    var rows :- MapRows(f.rows, r => InteractionRow(product, flags, r));
    Ok(Frame(AddColumns(f.columns, InteractionAdded(product, flags)), rows))
  }

  /**
   * The interaction step succeeds iff every row does, and rewrites each row with
   * `InteractionRow`; `product` and `flags` say which source columns exist.
   */
  lemma InteractionFeaturesShape(f: Frame, product: bool, flags: bool)
    requires product == ("tenure" in f.columns && "MonthlyCharges" in f.columns)
    requires flags == ("is_month_to_month" in f.columns && "is_electronic_check" in f.columns)
    ensures InteractionFeatures(f).Ok? <==>
      forall i :: 0 <= i < |f.rows| ==> InteractionRow(product, flags, f.rows[i]).Ok?
    ensures InteractionFeatures(f).Ok? ==>
      Assigned(f, InteractionFeatures(f).value, {}, InteractionAdded(product, flags))
    ensures InteractionFeatures(f).Ok? ==> forall i :: 0 <= i < |f.rows| ==>
      InteractionFeatures(f).value.rows[i] == InteractionRow(product, flags, f.rows[i]).value
  {
    var g := r => InteractionRow(product, flags, r);
    var mapped := MapRows(f.rows, g);
    assert forall i :: 0 <= i < |f.rows| ==> g(f.rows[i]) == InteractionRow(product, flags, f.rows[i]);
    if mapped.Ok? {
      DropNothing(f.columns);
      var h := InteractionFeatures(f).value;
      assert h.rows == mapped.value;
      forall i | 0 <= i < |f.rows|
        ensures RowAssigned(f.rows[i], h.rows[i], {}, InteractionAdded(product, flags))
      {
        assert h.rows[i] == InteractionRow(product, flags, f.rows[i]).value;
        InteractionRowAssigned(product, flags, f.rows[i]);
      }
    }
  }

  // --------------------------------------------------------------- pipeline

  /** `engineer_features`: charges, services, contract, tenure groups, then interactions. */
  function EngineerFeatures(f: Frame): Result<Frame, string> {
    var charged :- ChargeFeatures(f);
    var serviced :- ServiceFeatures(charged);
    var contracted :- ContractFeatures(serviced);
    var grouped :- TenureGroups(contracted);
    InteractionFeatures(grouped)
  }

  /** `g` has every row of `f` and every column of `f` outside `removed`. */
  ghost predicate Keeps(f: Frame, g: Frame, removed: set<string>) {
    |g.rows| == |f.rows| && forall c :: c in f.columns && c !in removed ==> c in g.columns
  }

  lemma ChargeFeaturesKeeps(f: Frame)
    requires ChargeFeatures(f).Ok?
    ensures Keeps(f, ChargeFeatures(f).value, {})
  {
  }

  lemma ServiceFeaturesKeeps(f: Frame)
    requires ServiceFeatures(f).Ok?
    ensures Keeps(f, ServiceFeatures(f).value, {})
  {
  }

  lemma ContractFeaturesKeeps(f: Frame)
    requires ContractFeatures(f).Ok?
    ensures Keeps(f, ContractFeatures(f).value, {})
  {
  }

  lemma TenureGroupsKeeps(f: Frame)
    requires TenureGroups(f).Ok?
    ensures Keeps(f, TenureGroups(f).value, {"tenure_group"})
  {
  }

  lemma InteractionFeaturesKeeps(f: Frame)
    requires InteractionFeatures(f).Ok?
    ensures Keeps(f, InteractionFeatures(f).value, {})
  {
  }

  /**
   * Feature engineering keeps every row and every column it is given, except that a
   * stale `tenure_group` is replaced; it only ever adds columns.
   */
  lemma EngineerFeaturesKeeps(f: Frame)
    requires EngineerFeatures(f).Ok?
    ensures Keeps(f, EngineerFeatures(f).value, {"tenure_group"})
  {
    var charged := ChargeFeatures(f).value;
    ChargeFeaturesKeeps(f);
    var serviced := ServiceFeatures(charged).value;
    ServiceFeaturesKeeps(charged);
    var contracted := ContractFeatures(serviced).value;
    ContractFeaturesKeeps(serviced);
    var grouped := TenureGroups(contracted).value;
    TenureGroupsKeeps(contracted);
    InteractionFeaturesKeeps(grouped);
  }
}
