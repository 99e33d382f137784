/**
 * pandas DataFrames as values: an ordered list of column names and one row per
 * record, each row mapping column names to cells. Copy-then-assign code is a
 * function from the old frame to the new one, so a caller's frame never changes.
 */
module Frames {
  import opened Wrappers
  import opened Values

  type Row = map<string, Value>

  datatype Frame = Frame(columns: seq<string>, rows: seq<Row>)

  /** Column names are unique and every row has exactly the frame's columns. */
  ghost predicate WellFormed(f: Frame) {
    Distinct(f.columns)
    && forall i :: 0 <= i < |f.rows| ==> forall c :: c in f.rows[i] <==> c in f.columns
  }

  /** A cell, or NaN for a column the row lacks. */
  function Cell(r: Row, c: string): Value {
    if c in r then r[c] else Null
  }

  function Column(f: Frame, c: string): (r: seq<Value>)
    ensures |r| == |f.rows|
    ensures forall i :: 0 <= i < |r| ==> r[i] == Cell(f.rows[i], c)
  {
    seq(|f.rows|, i requires 0 <= i < |f.rows| => Cell(f.rows[i], c))
  }

  /** pandas gives a column `object` dtype when it holds text. */
  predicate IsText(f: Frame, c: string) {
    exists i :: 0 <= i < |f.rows| && Cell(f.rows[i], c).Str?
  }

  /** `df[c] = ...` places a new column last and keeps an existing one in place. */
  function AddColumn(cols: seq<string>, c: string): (r: seq<string>)
    ensures Distinct(cols) ==> Distinct(r)
    ensures forall x :: x in r <==> x in cols || x == c
    ensures c in cols ==> r == cols
    ensures c !in cols ==> r == cols + [c]
  {
    if c in cols then cols else cols + [c]
  }

  /** Several assignments `df[c] = ...`, in order. */
  function AddColumns(cols: seq<string>, cs: seq<string>): (r: seq<string>)
    ensures Distinct(cols) ==> Distinct(r)
    ensures forall x :: x in r <==> x in cols || x in cs
    ensures |cols| <= |r|
    ensures r[..|cols|] == cols
    decreases |cs|
  {
    if cs == [] then cols else AddColumns(AddColumn(cols, cs[0]), cs[1..])
  }

  /** `df.drop(columns=drop)`, order of the others kept. */
  function DropColumns(cols: seq<string>, drop: set<string>): (r: seq<string>)
    ensures Distinct(cols) ==> Distinct(r)
    ensures forall x :: x in r <==> x in cols && x !in drop
    ensures |r| <= |cols|
  {
    if cols == [] then []
    else
      var rest := DropColumns(cols[1..], drop);
      assert forall x :: x in cols <==> x == cols[0] || x in cols[1..];
      if cols[0] in drop then rest else [cols[0]] + rest
  }

  lemma {:induction false} DropNothing(cols: seq<string>)
    ensures DropColumns(cols, {}) == cols
  {
    if cols != [] {
      DropNothing(cols[1..]);
      assert cols == [cols[0]] + cols[1..];
    }
  }

  /** The names of `wanted` that are columns of the frame, in `wanted` order. */
  function Present(columns: seq<string>, wanted: seq<string>): (r: seq<string>)
    ensures |r| <= |wanted|
    ensures forall c :: c in r <==> c in wanted && c in columns
  {
    if wanted == [] then []
    else
      var rest := Present(columns, wanted[1..]);
      assert forall c :: c in wanted <==> c == wanted[0] || c in wanted[1..];
      if wanted[0] in columns then [wanted[0]] + rest else rest
  }

  /** Adding a column that is not wanted does not change which wanted columns are present. */
  lemma {:induction false} PresentAddColumn(columns: seq<string>, c: string, wanted: seq<string>)
    requires c !in wanted
    ensures Present(AddColumn(columns, c), wanted) == Present(columns, wanted)
  {
    if wanted != [] {
      PresentAddColumn(columns, c, wanted[1..]);
    }
  }

  /** `df[c] = df[c].map(g)` when the frame has column `c`; otherwise nothing happens. */
  function MapColumn(f: Frame, c: string, g: Value -> Value): (r: Frame)
    ensures r.columns == f.columns && |r.rows| == |f.rows|
    ensures c !in f.columns ==> r == f
  {
    if c !in f.columns then f
    else Frame(f.columns, seq(|f.rows|, i requires 0 <= i < |f.rows| => f.rows[i][c := g(Cell(f.rows[i], c))]))
  }

  /** Mapping a column rewrites that column's cells and no other cell. */
  lemma MapColumnCell(f: Frame, c: string, g: Value -> Value, i: nat, d: string)
    requires c in f.columns && i < |f.rows|
    ensures c in MapColumn(f, c, g).rows[i]
    ensures MapColumn(f, c, g).rows[i].Keys == f.rows[i].Keys + {c}
    ensures Cell(MapColumn(f, c, g).rows[i], d) == if d == c then g(Cell(f.rows[i], c)) else Cell(f.rows[i], d)
  {
  }

  /** `df.drop(columns=...)` of the named columns, from the header and from every row. */
  function DropFrame(f: Frame, drop: set<string>): (r: Frame)
    ensures r.columns == DropColumns(f.columns, drop) && |r.rows| == |f.rows|
    ensures forall i :: 0 <= i < |f.rows| ==> r.rows[i] == f.rows[i] - drop
  {
    Frame(DropColumns(f.columns, drop), seq(|f.rows|, i requires 0 <= i < |f.rows| => f.rows[i] - drop))
  }

  /** `r2` is `r` without the cells `removed` and with the cells `added` assigned. */
  ghost predicate RowAssigned(r: Row, r2: Row, removed: set<string>, added: seq<string>) {
    && (forall c :: c in r2 <==> (c in r && c !in removed) || c in added)
    && (forall c :: c !in removed && c !in added ==> Cell(r2, c) == Cell(r, c))
  }

  /**
   * `g` is `f` after dropping the columns `removed` and assigning the columns
   * `added`: every other cell of every row is unchanged.
   */
  ghost predicate Assigned(f: Frame, g: Frame, removed: set<string>, added: seq<string>) {
    && g.columns == AddColumns(DropColumns(f.columns, removed), added)
    && |g.rows| == |f.rows|
    && forall i :: 0 <= i < |f.rows| ==> RowAssigned(f.rows[i], g.rows[i], removed, added)
  }

  lemma AssignedWellFormed(f: Frame, g: Frame, removed: set<string>, added: seq<string>)
    requires WellFormed(f) && Assigned(f, g, removed, added)
    ensures WellFormed(g)
  {
  }

  /** Applies a per-row rule that may raise; the frame-wide operation raises if any row does. */
  function MapRows(rows: seq<Row>, g: Row -> Result<Row, string>): (r: Result<seq<Row>, string>)
    ensures r.Ok? <==> forall i :: 0 <= i < |rows| ==> g(rows[i]).Ok?
    ensures r.Ok? ==> |r.value| == |rows|
    ensures r.Ok? ==> forall i :: 0 <= i < |rows| ==> r.value[i] == g(rows[i]).value
  {
    if rows == [] then Ok([])
    else
      match g(rows[0])
      case Err(e) => Err(e)
      case Ok(first) =>
        match MapRows(rows[1..], g)
        case Err(e) =>
          assert forall i :: 1 <= i < |rows| ==> rows[i] == rows[1..][i - 1];
          Err(e)
        case Ok(rest) =>
          assert forall i :: 1 <= i < |rows| ==> rows[i] == rows[1..][i - 1];
          Ok([first] + rest)
  }

  /**
   * Numeric cells as pandas arithmetic sees them: None is NaN, a boolean counts as
   * 0 or 1, and text (or a nested value) raises a TypeError.
   */
  function Numeric(v: Value): Result<Option<real>, string> {
    match v
    case Null => Ok(None)
    case Num(x) => Ok(Some(x))
    case Bool(b) => Ok(Some(if b then 1.0 else 0.0))
    case _ => Err("unsupported operand type(s)")
  }

  function FromNumeric(x: Option<real>): Value {
    if x.None? then Null else Num(x.value)
  }

  /** `astype(int)` of a boolean. */
  function Flag(b: bool): Value {
    Num(if b then 1.0 else 0.0)
  }

  function Plus(a: Value, b: Value): (r: Result<Value, string>)
    ensures a.Num? && b.Num? ==> r == Ok(Num(a.x + b.x))
    ensures r.Ok? && (a.Null? || b.Null?) ==> r.value.Null?
  {
    var x :- Numeric(a);
    var y :- Numeric(b);
    Ok(if x.Some? && y.Some? then Num(x.value + y.value) else Null)
  }

  function Times(a: Value, b: Value): (r: Result<Value, string>)
    ensures a.Num? && b.Num? ==> r == Ok(Num(a.x * b.x))
  {
    if a.Num? && b.Num? then Ok(Num(a.x * b.x))
    else
      var x :- Numeric(a);
      var y :- Numeric(b);
      Ok(if x.Some? && y.Some? then Num(x.value * y.value) else Null)
  }

  /** True division; a zero divisor gives a missing value. */
  function Over(a: Value, b: Value): (r: Result<Value, string>)
    ensures a.Num? && b.Num? && b.x != 0.0 ==> r == Ok(Num(a.x / b.x))
  {
    var x :- Numeric(a);
    var y :- Numeric(b);
    Ok(if x.Some? && y.Some? && y.value != 0.0 then Num(x.value / y.value) else Null)
  }

  /** Element-wise `>`; any comparison with NaN is false. */
  function Greater(a: Value, b: Value): (r: Result<bool, string>)
    ensures a.Num? && b.Num? ==> r == Ok(a.x > b.x)
    ensures r.Ok? && (a.Null? || b.Null?) ==> !r.value
  {
    var x :- Numeric(a);
    var y :- Numeric(b);
    Ok(x.Some? && y.Some? && x.value > y.value)
  }

  /** `ffill` of one column: the nearest value at or before `i` that is not missing. */
  function Filled(col: seq<Value>, i: nat): Value
    requires i < |col|
  {
    if col[i] != Null then col[i]
    else if i == 0 then Null
    else Filled(col, i - 1)
  }

  /** A filled cell is the original one when present, else the nearest earlier present one. */
  lemma {:induction false} FilledNearest(col: seq<Value>, i: nat)
    requires i < |col|
    ensures Filled(col, i) == Null <==> forall k :: 0 <= k <= i ==> col[k] == Null
    ensures Filled(col, i) != Null ==>
      exists j :: 0 <= j <= i && col[j] == Filled(col, i)
        && forall k :: j < k <= i ==> col[k] == Null
  {
    if col[i] == Null && i > 0 {
      FilledNearest(col, i - 1);
      if Filled(col, i) != Null {
        var j :| 0 <= j <= i - 1 && col[j] == Filled(col, i - 1)
          && forall k :: j < k <= i - 1 ==> col[k] == Null;
        assert forall k :: j < k <= i ==> col[k] == Null;
      }
    }
  }

  /** `df.ffill()`: every missing cell takes the nearest earlier value of its column. */
  function FFill(f: Frame): (r: Frame)
    ensures r.columns == f.columns && |r.rows| == |f.rows|
    ensures forall i :: 0 <= i < |f.rows| ==> r.rows[i].Keys == f.rows[i].Keys
    ensures forall i, c :: 0 <= i < |f.rows| && c in f.rows[i] ==>
      r.rows[i][c] == Filled(Column(f, c), i)
  {
    Frame(f.columns, seq(|f.rows|, i requires 0 <= i < |f.rows| =>
      map c | c in f.rows[i] :: Filled(Column(f, c), i)))
  }

  /** Forward filling leaves no gap that an earlier row could fill. */
  lemma FFillNoGapAfterValue(f: Frame, c: string, j: nat, i: nat)
    requires j <= i < |f.rows| && c in f.rows[i]
    requires Cell(f.rows[j], c) != Null
    ensures FFill(f).rows[i][c] != Null
  {
    FilledNearest(Column(f, c), i);
  }
}
