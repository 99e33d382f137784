/**
 * Cleaning and encoding of the customer frame before training or inference:
 * TotalCharges repair, the customer id copy, forward filling, the Yes/No codes of
 * the binary columns, and the split into features and target.
 */
module DataProcessing {
  import opened Wrappers
  import opened Values
  import opened Strings
  import opened Frames

  // -------------------------------------------------------------- clean_data

  /** `replace(' ', NaN)` followed by `to_numeric(errors='coerce')`, for one cell. */
  function ToNumeric(v: Value): (r: Value)
    ensures r.Null? || r.Num?
    ensures v.Num? ==> r == v
    ensures v == Str(" ") ==> r.Null?
    ensures v.Str? && ParseNumber(v.s).Some? && v.s != " " ==> r == Num(ParseNumber(v.s).value)
    ensures v.Str? && ParseNumber(v.s).None? ==> r.Null?
  {
    match v
    case Num(_) => v
    case Bool(b) => Flag(b)
    case Str(s) =>
      if s == " " then Null
      else if ParseNumber(s).Some? then Num(ParseNumber(s).value)
      else Null
    case _ => Null
  }

  /** The repaired TotalCharges cell of one row: coerced, and the row's MonthlyCharges where missing. */
  function FixTotalRow(r: Row): Row {
    var coerced := ToNumeric(Cell(r, "TotalCharges"));
    r["TotalCharges" := if coerced.Null? then Cell(r, "MonthlyCharges") else coerced]
  }

  /**
   * A numeric TotalCharges is kept, a blank, missing or unparsable one becomes the
   * row's MonthlyCharges, and no other cell changes.
   */
  lemma FixTotalRowValues(r: Row)
    ensures RowAssigned(r, FixTotalRow(r), {}, ["TotalCharges"])
    ensures Cell(r, "TotalCharges").Num? ==> Cell(FixTotalRow(r), "TotalCharges") == Cell(r, "TotalCharges")
    ensures ToNumeric(Cell(r, "TotalCharges")).Null? ==>
      Cell(FixTotalRow(r), "TotalCharges") == Cell(r, "MonthlyCharges")
    ensures Cell(r, "MonthlyCharges").Num? ==> Cell(FixTotalRow(r), "TotalCharges").Num?
  {
  }

  /** The TotalCharges step of `clean_data`; filling needs a MonthlyCharges column. */
  function FixTotalCharges(f: Frame): (r: Result<Frame, string>)
    ensures "TotalCharges" !in f.columns ==> r == Ok(f)
    ensures r.Err? <==> "TotalCharges" in f.columns && "MonthlyCharges" !in f.columns
    ensures r.Ok? ==> r.value.columns == f.columns && |r.value.rows| == |f.rows|
  {
    if "TotalCharges" !in f.columns then Ok(f)
    else if "MonthlyCharges" !in f.columns then Err("'MonthlyCharges'")
    else Ok(Frame(f.columns, seq(|f.rows|, i requires 0 <= i < |f.rows| => FixTotalRow(f.rows[i]))))
  }

  /** `df['customer_id'] = df['customerID']` when the frame has a customerID column. */
  function CopyCustomerId(f: Frame): (r: Frame)
    ensures "customerID" !in f.columns ==> r == f
    ensures |r.rows| == |f.rows|
  {
    if "customerID" !in f.columns then f
    else
      Frame(AddColumn(f.columns, "customer_id"),
            seq(|f.rows|, i requires 0 <= i < |f.rows| =>
              f.rows[i]["customer_id" := Cell(f.rows[i], "customerID")]))
  }

  /** `map({0: 'No', 1: 'Yes'})` for one cell; a boolean hashes like 0 or 1, anything else is NaN. */
  function SeniorText(v: Value): (r: Value)
    ensures r == Str("No") <==> v == Num(0.0) || v == Bool(false)
    ensures r == Str("Yes") <==> v == Num(1.0) || v == Bool(true)
    ensures r.Null? <==> !(v in {Num(0.0), Num(1.0), Bool(false), Bool(true)})
  {
    if v == Num(0.0) || v == Bool(false) then Str("No")
    else if v == Num(1.0) || v == Bool(true) then Str("Yes")
    else Null
  }

  /** `clean_data`: the steps in source order, on a copy of the frame. */
  function Clean(f: Frame): (r: Result<Frame, string>)
    ensures r.Err? <==> "TotalCharges" in f.columns && "MonthlyCharges" !in f.columns
    ensures r.Ok? ==> |r.value.rows| == |f.rows|
  {
    var fixed :- FixTotalCharges(f);
    Ok(MapColumn(FFill(CopyCustomerId(fixed)), "SeniorCitizen", SeniorText))
  }

  /** The frames between the steps of `clean_data`, named for the lemmas below. */
  datatype CleanStages = CleanStages(fixed: Frame, copied: Frame, filled: Frame, cleaned: Frame)

  function Stages(f: Frame): (s: CleanStages)
    requires Clean(f).Ok?
    ensures s.cleaned == Clean(f).value
  {
    var fixed := FixTotalCharges(f).value;
    var copied := CopyCustomerId(fixed);
    var filled := FFill(copied);
    CleanStages(fixed, copied, filled, MapColumn(filled, "SeniorCitizen", SeniorText))
  }

  /** Each row of the repaired frame keeps its columns and all its cells except TotalCharges. */
  lemma FixedRow(f: Frame, i: nat)
    requires WellFormed(f) && Clean(f).Ok? && i < |f.rows|
    ensures Stages(f).fixed.rows[i].Keys == f.rows[i].Keys
    ensures forall c :: c != "TotalCharges" ==> Cell(Stages(f).fixed.rows[i], c) == Cell(f.rows[i], c)
    ensures "TotalCharges" in f.columns ==> Stages(f).fixed.rows[i] == FixTotalRow(f.rows[i])
  {
  }

  /** Cleaning keeps the header, adding `customer_id` after it when customerID is present. */
  lemma CleanColumns(f: Frame)
    requires WellFormed(f) && Clean(f).Ok?
    ensures Clean(f).value.columns ==
      if "customerID" in f.columns then AddColumn(f.columns, "customer_id") else f.columns
    ensures WellFormed(Clean(f).value)
  {
    var s := Stages(f);
    forall i | 0 <= i < |f.rows|
      ensures forall c :: c in s.cleaned.rows[i] <==> c in s.cleaned.columns
    {
      FixedRow(f, i);
      if "SeniorCitizen" in f.columns {
        MapColumnCell(s.filled, "SeniorCitizen", SeniorText, i, "SeniorCitizen");
      }
    }
  }

  /**
   * After cleaning, `customer_id` equals `customerID` in every row (both are forward
   * filled from the same column).
   */
  lemma CleanCopiesId(f: Frame, i: nat)
    requires WellFormed(f) && Clean(f).Ok? && "customerID" in f.columns && i < |f.rows|
    ensures Cell(Clean(f).value.rows[i], "customer_id") == Cell(Clean(f).value.rows[i], "customerID")
  {
    var s := Stages(f);
    assert "customer_id"[0] != "SeniorCitizen"[0] && "customerID"[0] != "SeniorCitizen"[0];
    assert "customer_id"[8] != "customerID"[8];
    assert Column(s.copied, "customer_id") == Column(s.copied, "customerID") by {
      forall k | 0 <= k < |f.rows|
        ensures Cell(s.copied.rows[k], "customer_id") == Cell(s.copied.rows[k], "customerID")
      {
        FixedRow(f, k);
      }
    }
    FixedRow(f, i);
    if "SeniorCitizen" in f.columns {
      MapColumnCell(s.filled, "SeniorCitizen", SeniorText, i, "customer_id");
      MapColumnCell(s.filled, "SeniorCitizen", SeniorText, i, "customerID");
    }
  }

  /**
   * A column other than TotalCharges, SeniorCitizen and customer_id is forward filled:
   * each cell is the nearest present value at or above it.
   */
  lemma CleanFills(f: Frame, c: string, i: nat)
    requires WellFormed(f) && Clean(f).Ok? && i < |f.rows| && c in f.columns
    requires c != "TotalCharges" && c != "SeniorCitizen" && c != "customer_id"
    ensures Cell(Clean(f).value.rows[i], c) == Filled(Column(f, c), i)
  {
    var s := Stages(f);
    assert Column(s.copied, c) == Column(f, c) by {
      forall k | 0 <= k < |f.rows|
        ensures Cell(s.copied.rows[k], c) == Cell(f.rows[k], c)
      {
        FixedRow(f, k);
      }
    }
    FixedRow(f, i);
    if "SeniorCitizen" in f.columns {
      MapColumnCell(s.filled, "SeniorCitizen", SeniorText, i, c);
    }
  }

  /**
   * With a numeric MonthlyCharges, the cleaned TotalCharges of a row is numeric: its
   * own value when it was numeric, the MonthlyCharges when it was blank, missing or
   * not a number.
   */
  lemma CleanTotalCharges(f: Frame, i: nat)
    requires WellFormed(f) && Clean(f).Ok? && "TotalCharges" in f.columns && i < |f.rows|
    requires Cell(f.rows[i], "MonthlyCharges").Num?
    ensures Cell(Clean(f).value.rows[i], "TotalCharges").Num?
    ensures Cell(f.rows[i], "TotalCharges").Num? ==>
      Cell(Clean(f).value.rows[i], "TotalCharges") == Cell(f.rows[i], "TotalCharges")
    ensures ToNumeric(Cell(f.rows[i], "TotalCharges")).Null? ==>
      Cell(Clean(f).value.rows[i], "TotalCharges") == Cell(f.rows[i], "MonthlyCharges")
  {
    var s := Stages(f);
    assert "TotalCharges"[0] != "customer_id"[0] && "TotalCharges"[0] != "SeniorCitizen"[0];
    FixedRow(f, i);
    FixTotalRowValues(f.rows[i]);
    if "customerID" in f.columns {
      assert s.copied.rows[i]["TotalCharges"] == s.fixed.rows[i]["TotalCharges"];
    }
    assert s.filled.rows[i]["TotalCharges"] == s.copied.rows[i]["TotalCharges"];
    if "SeniorCitizen" in f.columns {
      MapColumnCell(s.filled, "SeniorCitizen", SeniorText, i, "TotalCharges");
    }
  }

  /** Numeric cells of tenure and MonthlyCharges survive cleaning unchanged. */
  lemma CleanKeepsNumber(f: Frame, c: string, i: nat)
    requires WellFormed(f) && Clean(f).Ok? && i < |f.rows| && c in f.columns
    requires c == "tenure" || c == "MonthlyCharges"
    requires Cell(f.rows[i], c).Num?
    ensures Cell(Clean(f).value.rows[i], c) == Cell(f.rows[i], c)
  {
    assert "tenure"[0] != "TotalCharges"[0] && "MonthlyCharges"[0] != "TotalCharges"[0];
    assert "tenure"[0] != "SeniorCitizen"[0] && "MonthlyCharges"[0] != "SeniorCitizen"[0];
    assert "tenure"[0] != "customer_id"[0] && "MonthlyCharges"[0] != "customer_id"[0];
    CleanFills(f, c, i);
  }

  /** A present SeniorCitizen 0/1 (after filling) is rewritten to 'No'/'Yes'. */
  lemma CleanSenior(f: Frame, i: nat)
    requires WellFormed(f) && Clean(f).Ok? && i < |f.rows| && "SeniorCitizen" in f.columns
    ensures Cell(Clean(f).value.rows[i], "SeniorCitizen") == SeniorText(Filled(Column(f, "SeniorCitizen"), i))
  {
    var s := Stages(f);
    assert "SeniorCitizen"[0] != "TotalCharges"[0] && "SeniorCitizen"[0] != "customer_id"[0];
    assert Column(s.copied, "SeniorCitizen") == Column(f, "SeniorCitizen") by {
      forall k | 0 <= k < |f.rows|
        ensures Cell(s.copied.rows[k], "SeniorCitizen") == Cell(f.rows[k], "SeniorCitizen")
      {
        FixedRow(f, k);
      }
    }
    FixedRow(f, i);
    MapColumnCell(s.filled, "SeniorCitizen", SeniorText, i, "SeniorCitizen");
  }

  // ------------------------------------------------------- encode_categorical

  const BinaryColumns := ["gender", "Partner", "Dependents", "PhoneService", "PaperlessBilling",
                          "SeniorCitizen", "Churn"]

  const CategoricalColumns := ["MultipleLines", "InternetService", "OnlineSecurity", "OnlineBackup",
                               "DeviceProtection", "TechSupport", "StreamingTV", "StreamingMovies",
                               "Contract", "PaymentMethod"]

  /** The fixed code table of a binary column; a value outside the table becomes NaN. */
  function BinaryCode(col: string, v: Value): (r: Value)
    ensures col == "gender" ==> (r == Num(1.0) <==> v == Str("Male")) && (r == Num(0.0) <==> v == Str("Female"))
    ensures col != "gender" ==> (r == Num(1.0) <==> v == Str("Yes")) && (r == Num(0.0) <==> v == Str("No"))
    ensures r.Null? || r == Num(0.0) || r == Num(1.0)
  {
    var (one, zero) := if col == "gender" then ("Male", "Female") else ("Yes", "No");
    if v == Str(one) then Num(1.0) else if v == Str(zero) then Num(0.0) else Null
  }

  /** Encoding SeniorCitizen undoes its cleaning: 0 and 1 come back (a boolean comes back as its flag). */
  lemma SeniorRoundTrip(v: Value)
    requires v in {Num(0.0), Num(1.0), Bool(false), Bool(true)}
    ensures BinaryCode("SeniorCitizen", SeniorText(v)) == if v.Bool? then Flag(v.b) else v
  {
    assert "SeniorCitizen"[0] != "gender"[0];
  }

  /** The binary maps, one column after the other, for the listed columns the frame has. */
  function EncodeColumns(f: Frame, cols: seq<string>): (r: Frame)
    ensures r.columns == f.columns && |r.rows| == |f.rows|
  {
    if cols == [] then f
    else
      var c := cols[|cols| - 1];
      MapColumn(EncodeColumns(f, cols[..|cols| - 1]), c, v => BinaryCode(c, v))
  }

  /** Each listed column present is coded by its table; every other cell is unchanged. */
  lemma {:induction false} EncodeColumnsCell(f: Frame, cols: seq<string>, i: nat, d: string)
    requires Distinct(cols) && i < |f.rows|
    ensures Cell(EncodeColumns(f, cols).rows[i], d) ==
      if d in cols && d in f.columns then BinaryCode(d, Cell(f.rows[i], d)) else Cell(f.rows[i], d)
    ensures EncodeColumns(f, cols).rows[i].Keys == f.rows[i].Keys + (set c | c in cols && c in f.columns)
  {
    if cols != [] {
      var init := cols[..|cols| - 1];
      var c := cols[|cols| - 1];
      assert Distinct(init);
      assert d in cols <==> d in init || d == c;
      assert c !in init;
      EncodeColumnsCell(f, init, i, d);
      EncodeColumnsCell(f, init, i, c);
      var g := EncodeColumns(f, init);
      if c in f.columns {
        MapColumnCell(g, c, v => BinaryCode(c, v), i, d);
      }
    }
  }

  /**
   * The one-hot step of `encode_categorical`: the frame and the categorical columns it
   * holds, in the listed order, to the frame with indicator columns.
   */
  type OneHot = (Frame, seq<string>) -> Frame

  /** `d` is named like an indicator column of one of `cols`: `<column>_<value>`. */
  ghost predicate IsIndicator(d: string, cols: seq<string>) {
    exists c :: c in cols && StartsWith(d, c + "_")
  }

  /**
   * What the model relies on of `pd.get_dummies(df, columns=cols, drop_first=True)`:
   * the rows stay, the listed columns go, every other column stays with its cells,
   * and each new column is an indicator `<listed column>_<value>`.
   */
  ghost predicate DummiesKeep(oneHot: OneHot) {
    forall g: Frame, cols: seq<string> {:trigger oneHot(g, cols)} ::
      var r := oneHot(g, cols);
      && |r.rows| == |g.rows|
      && (forall c :: c in cols ==> c !in r.columns)
      && (forall d :: d in r.columns && d !in g.columns ==> IsIndicator(d, cols))
      && (forall d :: d in g.columns && d !in cols ==> d in r.columns)
      && (forall i, d :: 0 <= i < |g.rows| && d in g.columns && d !in cols ==>
            Cell(r.rows[i], d) == Cell(g.rows[i], d))
  }

  /** `encode_categorical`: binary maps, then one-hot encoding when a categorical column is present. */
  function EncodeCategorical(f: Frame, oneHot: OneHot): (r: Frame)
    ensures Present(f.columns, CategoricalColumns) == [] ==> r == EncodeColumns(f, BinaryColumns)
  {
    var coded := EncodeColumns(f, BinaryColumns);
    var existing := Present(coded.columns, CategoricalColumns);
    if existing == [] then coded else oneHot(coded, existing)
  }

  lemma BinaryColumnsDistinct()
    ensures Distinct(BinaryColumns)
  {
    var b := BinaryColumns;
    assert forall j :: 0 <= j < |b| ==> |b[j]| >= 5;
    assert b[0][0] == 'g' && b[1][0] == 'P' && b[2][0] == 'D' && b[3][0] == 'P';
    assert b[4][0] == 'P' && b[5][0] == 'S' && b[6][0] == 'C';
    assert b[1][2] == 'r' && b[3][2] == 'o' && b[4][2] == 'p';
  }

  /**
   * Encoding keeps the rows; every column that is not multi-class stays, holding its
   * binary code or its cell as it was, and every new column is an indicator.
   */
  lemma EncodeCategoricalKeeps(g: Frame, oneHot: OneHot)
    requires DummiesKeep(oneHot)
    ensures var r := EncodeCategorical(g, oneHot);
      && |r.rows| == |g.rows|
      && (forall d :: d in g.columns && d !in CategoricalColumns ==> d in r.columns)
      && (forall d :: d in r.columns && d !in g.columns ==> IsIndicator(d, CategoricalColumns))
      && (forall i, d :: 0 <= i < |g.rows| && d in g.columns && d !in CategoricalColumns ==>
            Cell(r.rows[i], d) == Cell(EncodeColumns(g, BinaryColumns).rows[i], d))
  {
    var coded := EncodeColumns(g, BinaryColumns);
    var existing := Present(coded.columns, CategoricalColumns);
    if existing != [] {
      var r := oneHot(coded, existing);
      forall d | d in r.columns && d !in g.columns
        ensures IsIndicator(d, CategoricalColumns)
      {
        var c :| c in existing && StartsWith(d, c + "_");
      }
    }
  }

  /** A name too short for, or differing in its first two letters from, every `<column>_` is no indicator. */
  lemma NotIndicator(d: string, cols: seq<string>)
    requires |d| >= 2
    requires forall c :: c in cols ==> |d| <= |c| || (|c| >= 2 && (c[0] != d[0] || c[1] != d[1]))
    ensures !IsIndicator(d, cols)
  {
    forall c | c in cols
      ensures !StartsWith(d, c + "_")
    {
      StartsWithPrefix(d, c + "_");
      if |c| + 1 <= |d| {
        var w := c + "_";
        assert w[0] == c[0] && w[1] == c[1];
        assert d[..|w|][0] == d[0] && d[..|w|][1] == d[1];
      }
    }
  }

  /** The binary columns a frame has are coded by their tables; every other cell is unchanged. */
  lemma EncodeBinaryCell(f: Frame, i: nat, d: string)
    requires i < |f.rows|
    ensures Cell(EncodeColumns(f, BinaryColumns).rows[i], d) ==
      if d in BinaryColumns && d in f.columns then BinaryCode(d, Cell(f.rows[i], d)) else Cell(f.rows[i], d)
  {
    BinaryColumnsDistinct();
    EncodeColumnsCell(f, BinaryColumns, i, d);
  }

  // --------------------------------------------------------- prepare_features

  const IdColumns := {"customerID", "customer_id"}

  /** The features X and the target y (None when the frame lacks the target column). */
  datatype Prepared = Prepared(x: Frame, y: Option<seq<Value>>)

  /** `prepare_features`: the target leaves X, then the id columns present do. */
  function Prepare(f: Frame, target: string): Prepared {
    var withoutTarget := if target in f.columns then DropFrame(f, {target}) else f;
    Prepared(DropFrame(withoutTarget, IdColumns),
             if target in f.columns then Some(Column(f, target)) else None)
  }

  /**
   * y is the target column exactly when the frame has one; X keeps the other columns
   * in order, without the target and the ids, and every row keeps its other cells.
   */
  lemma PrepareShape(f: Frame, target: string)
    requires WellFormed(f)
    ensures Prepare(f, target).y.None? <==> target !in f.columns
    ensures Prepare(f, target).y.Some? ==> Prepare(f, target).y.value == Column(f, target)
    ensures var x := Prepare(f, target).x;
      && Distinct(x.columns)
      && (forall c :: c in x.columns <==> c in f.columns && c != target && c !in IdColumns)
      && |x.rows| == |f.rows|
      && forall i :: 0 <= i < |f.rows| ==> x.rows[i] == f.rows[i] - ({target} + IdColumns)
  {
    var x := Prepare(f, target).x;
    forall i | 0 <= i < |f.rows|
      ensures x.rows[i] == f.rows[i] - ({target} + IdColumns)
    {
      if target !in f.columns {
        assert target !in f.rows[i];
      }
    }
  }

  /** The features and target of `process_pipeline`, before scaling, and the feature names. */
  datatype Processed = Processed(x: Frame, y: Option<seq<Value>>, featureNames: seq<string>)

  /** `process_pipeline` up to the scaler: clean, encode, split. */
  function Pipeline(f: Frame, target: string, oneHot: OneHot): (r: Result<Processed, string>)
    ensures r.Ok? <==> Clean(f).Ok?
    ensures r.Ok? ==> r.value.featureNames == r.value.x.columns
  {
    var cleaned :- Clean(f);
    var p := Prepare(EncodeCategorical(cleaned, oneHot), target);
    Ok(Processed(p.x, p.y, p.x.columns))
  }

  lemma ChurnNotCategorical()
    ensures "Churn" !in CategoricalColumns && !IsIndicator("Churn", CategoricalColumns)
  {
    var d := "Churn";
    assert |d| == 5;
    forall c | c in CategoricalColumns
      ensures |d| <= |c| && c != d
    {
      var j :| 0 <= j < |CategoricalColumns| && CategoricalColumns[j] == c;
      assert |CategoricalColumns[j]| >= 8;
    }
    NotIndicator(d, CategoricalColumns);
  }

  lemma SeniorNotCategorical()
    ensures "SeniorCitizen" !in CategoricalColumns && !IsIndicator("SeniorCitizen", CategoricalColumns)
  {
    forall j | 0 <= j < |CategoricalColumns|
      ensures |CategoricalColumns[j]| >= 8
      ensures CategoricalColumns[j][0] != 'S' || CategoricalColumns[j][1] == 't'
    {
    }
    assert "SeniorCitizen"[0] == 'S' && "SeniorCitizen"[1] == 'e';
    NotIndicator("SeniorCitizen", CategoricalColumns);
  }

  lemma IdNotCategorical()
    ensures "customer_id" !in CategoricalColumns
  {
    forall j | 0 <= j < |CategoricalColumns|
      ensures CategoricalColumns[j][0] != 'c'
    {
    }
  }

  /**
   * Cleaning adds no multi-class column: encoding one-hot encodes the same columns
   * after cleaning as before, and a frame without any is only binary-coded.
   */
  lemma CleanedNoCategorical(f: Frame, oneHot: OneHot)
    requires WellFormed(f) && Clean(f).Ok?
    ensures Present(Clean(f).value.columns, CategoricalColumns) == Present(f.columns, CategoricalColumns)
    ensures Present(f.columns, CategoricalColumns) == [] ==>
      EncodeCategorical(Clean(f).value, oneHot) == EncodeColumns(Clean(f).value, BinaryColumns)
  {
    CleanColumns(f);
    if "customerID" in f.columns {
      IdNotCategorical();
      PresentAddColumn(f.columns, "customer_id", CategoricalColumns);
    }
  }

  /** The pipeline's y is the target column of the encoded frame, when it has one. */
  lemma PipelineTargetColumn(f: Frame, target: string, oneHot: OneHot)
    requires Clean(f).Ok?
    ensures Pipeline(f, target, oneHot).value.y ==
      var encoded := EncodeCategorical(Clean(f).value, oneHot);
      if target in encoded.columns then Some(Column(encoded, target)) else None
  {
  }

  /**
   * The pipeline's y is present exactly when the frame has the Churn column, and it is
   * that column, forward filled, coded 1/0.
   */
  lemma PipelineTarget(f: Frame, oneHot: OneHot, p: Processed)
    requires WellFormed(f) && DummiesKeep(oneHot)
    requires Pipeline(f, "Churn", oneHot) == Ok(p)
    ensures p.y.None? <==> "Churn" !in f.columns
    ensures p.y.Some? ==> |p.y.value| == |f.rows|
    ensures p.y.Some? ==> forall i :: 0 <= i < |f.rows| ==>
      p.y.value[i] == BinaryCode("Churn", Filled(Column(f, "Churn"), i))
  {
    var cleaned := Clean(f).value;
    var encoded := EncodeCategorical(cleaned, oneHot);
    EncodeCategoricalKeeps(cleaned, oneHot);
    ChurnNotCategorical();
    PipelineTargetColumn(f, "Churn", oneHot);
    CleanColumns(f);
    assert "Churn"[0] != "customer_id"[0];
    assert "Churn" in encoded.columns <==> "Churn" in f.columns;
    if "Churn" in f.columns {
      forall i | 0 <= i < |f.rows|
        ensures Column(encoded, "Churn")[i] == BinaryCode("Churn", Filled(Column(f, "Churn"), i))
      {
        EncodeBinaryCell(cleaned, i, "Churn");
        assert "Churn"[0] != "TotalCharges"[0] && "Churn"[0] != "SeniorCitizen"[0];
        CleanFills(f, "Churn", i);
      }
    }
  }

  /**
   * The SeniorCitizen round trip: a frame whose SeniorCitizen cells are all 0 or 1
   * comes out of cleaning and encoding with the same cells.
   */
  lemma SeniorSurvivesPipeline(f: Frame, oneHot: OneHot, encoded: Frame)
    requires WellFormed(f) && Clean(f).Ok? && "SeniorCitizen" in f.columns
    requires DummiesKeep(oneHot)
    requires encoded == EncodeCategorical(Clean(f).value, oneHot)
    requires forall k :: 0 <= k < |f.rows| ==> Cell(f.rows[k], "SeniorCitizen") in {Num(0.0), Num(1.0)}
    ensures |encoded.rows| == |f.rows|
    ensures forall i :: 0 <= i < |f.rows| ==> Cell(encoded.rows[i], "SeniorCitizen") == Cell(f.rows[i], "SeniorCitizen")
  {
    var cleaned := Clean(f).value;
    EncodeCategoricalKeeps(cleaned, oneHot);
    CleanColumns(f);
    SeniorNotCategorical();
    forall i | 0 <= i < |f.rows|
      ensures Cell(encoded.rows[i], "SeniorCitizen") == Cell(f.rows[i], "SeniorCitizen")
    {
      EncodeBinaryCell(cleaned, i, "SeniorCitizen");
      CleanSenior(f, i);
      assert Filled(Column(f, "SeniorCitizen"), i) == Cell(f.rows[i], "SeniorCitizen");
      SeniorRoundTrip(Cell(f.rows[i], "SeniorCitizen"));
    }
  }

  /** The processor object: it remembers the feature names of the last split. */
  class DataProcessor {
    var featureNames: seq<string>

    constructor ()
      ensures featureNames == []
    {
      featureNames := [];
    }

    method PrepareFeatures(f: Frame, target: string) returns (x: Frame, y: Option<seq<Value>>)
      modifies this
      ensures Prepared(x, y) == Prepare(f, target)
      ensures featureNames == x.columns
    {
      var withoutTarget := f;
      if target in f.columns {
        y := Some(Column(f, target));
        withoutTarget := DropFrame(f, {target});
      } else {
        y := None;
      }
      x := DropFrame(withoutTarget, IdColumns);
      featureNames := x.columns;
    }

    /** `process_pipeline` before scaling; a failed cleaning raises before the names change. */
    method ProcessPipeline(f: Frame, target: string, oneHot: OneHot) returns (r: Result<Processed, string>)
      modifies this
      ensures r == Pipeline(f, target, oneHot)
      ensures r.Ok? ==> featureNames == r.value.featureNames
      ensures r.Err? ==> featureNames == old(featureNames)
    {
      var cleaned := Clean(f);
      if cleaned.Err? {
        return Err(cleaned.error);
      }
      var encoded := EncodeCategorical(cleaned.value, oneHot);
      var x, y := PrepareFeatures(encoded, target);
      r := Ok(Processed(x, y, featureNames));
    }
  }
}
