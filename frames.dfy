/** A DataFrame as the cleaning stage sees it: named columns over rows of cells.
    A cell holds nothing (NaN/NaT), a number, a parsed calendar day (a day
    number), or unparsed text. Column look-ups by name take the first column of
    that name. */
module Frames {
  import opened Base
  import opened Seqs

  datatype Value = Null | Num(n: real) | Day(d: int) | Text(s: string)

  datatype Grid = Grid(columns: seq<string>, rows: seq<seq<Value>>)

  /** Every row has exactly one cell per column. */
  type Table = g: Grid | forall i :: 0 <= i < |g.rows| ==> |g.rows[i]| == |g.columns|
    witness Grid([], [])

  /** What pandas makes of text: `pd.to_numeric` on a string, and `pd.to_datetime`
      on a cell that is not already a date. Both are outside the model and are
      supplied by the caller; `None` is a coercion failure. */
  datatype Parsers = Parsers(number: string -> Option<real>, day: Value -> Option<int>)

  // ---------------------------------------------------------------------------
  // Cell conversions

  /** `pd.to_numeric(..., errors='coerce').fillna(0)` on one cell. */
  function ToNumber(v: Value, p: Parsers): (r: Value)
    ensures r.Num?
    ensures v.Num? ==> r == v
    ensures v.Text? ==> r.n == (if p.number(v.s).Some? then p.number(v.s).value else 0.0)
    ensures v.Null? ==> r == Num(0.0)
  {
    match v
    case Num(_) => v
    case Text(s) => (match p.number(s) case Some(n) => Num(n) case None => Num(0.0))
    // NaN and an object-typed timestamp both fail numeric coercion
    case Null => Num(0.0)
    case Day(_) => Num(0.0)
  }

  /** `pd.to_datetime(..., errors='coerce')` on one cell: a day, or NaT. */
  function ToDay(v: Value, p: Parsers): (r: Value)
    ensures r.Day? || r.Null?
    ensures v.Day? ==> r == v
    ensures v.Null? ==> r == Null
  {
    match v
    case Day(_) => v
    case Null => Null
    case _ => (match p.day(v) case Some(d) => Day(d) case None => Null)
  }

  /** A cell read as a number, the way the model reads a count or amount. */
  function NumberOf(v: Value): real
  {
    if v.Num? then v.n else 0.0
  }

  // ---------------------------------------------------------------------------
  // Column names

  /** `str.lower().replace(' ', '_')` on a column name. */
  function NormalizeName(s: string): (r: string)
    ensures |r| == |s|
    ensures HasNoUpper(r) && ' ' !in r
    ensures forall i :: 0 <= i < |s| ==> r[i] == (if s[i] == ' ' then '_' else LowerChar(s[i]))
  {
    seq(|s|, i requires 0 <= i < |s| => if s[i] == ' ' then '_' else LowerChar(s[i]))
  }

  /** The first index holding `name`. */
  function IndexOf(cols: seq<string>, name: string): (r: Option<nat>)
    ensures r.Some? ==> r.value < |cols| && cols[r.value] == name && name !in cols[..r.value]
    ensures r.None? <==> name !in cols
    decreases |cols|
  {
    if cols == [] then None
    else if cols[0] == name then Some(0)
    else
      match IndexOf(cols[1..], name)
      case None => None
      case Some(k) =>
        assert cols[1..][..k] == cols[1..k + 1];
        Some(k + 1)
  }

  lemma IndexOfAt(cols: seq<string>, name: string, j: nat)
    requires j < |cols| && cols[j] == name && name !in cols[..j]
    ensures IndexOf(cols, name) == Some(j)
  {
    assert name in cols;
    var k := IndexOf(cols, name).value;
    assert forall m :: 0 <= m < j ==> cols[m] != name by {
      assert forall m :: 0 <= m < j ==> cols[m] == cols[..j][m];
    }
    assert forall m :: 0 <= m < k ==> cols[m] != name by {
      assert forall m :: 0 <= m < k ==> cols[m] == cols[..k][m];
    }
  }

  lemma IndexOfPrefix(cols: seq<string>, extra: seq<string>, name: string)
    requires name in cols
    ensures IndexOf(cols + extra, name) == IndexOf(cols, name)
  {
    var j := IndexOf(cols, name).value;
    assert (cols + extra)[..j] == cols[..j];
    IndexOfAt(cols + extra, name, j);
  }

  function AbsentFrom(cols: seq<string>): string -> bool
  {
    (c: string) => c !in cols
  }

  /** The listed columns the frame lacks, in list order. */
  function MissingColumns(cols: seq<string>, required: seq<string>): seq<string>
  {
    Filter(required, AbsentFrom(cols))
  }

  /** A column is reported missing exactly when it is listed and absent, so none
      is reported exactly when every listed column is present. */
  lemma MissingColumnsSpec(cols: seq<string>, required: seq<string>)
    ensures forall c :: c in MissingColumns(cols, required) <==> c in required && c !in cols
    ensures MissingColumns(cols, required) == [] <==> forall c :: c in required ==> c in cols
  {
    var m := MissingColumns(cols, required);
    forall c ensures c in m <==> c in required && c !in cols {
      assert AbsentFrom(cols)(c) <==> c !in cols;
    }
    if m != [] {
      assert m[0] in m;
    }
  }

  /** The cell of row `i` in the first column called `name`; NaN when there is none. */
  function Cell(t: Table, i: nat, name: string): Value
    requires i < |t.rows|
  {
    match IndexOf(t.columns, name)
    case Some(j) => t.rows[i][j]
    case None => Null
  }

  // ---------------------------------------------------------------------------
  // Column operations

  /** `df.rename(columns={from: to})`: every column called `from` is renamed. */
  function RenameColumns(t: Table, from: string, to: string): (r: Table)
    ensures r.rows == t.rows && |r.columns| == |t.columns|
    ensures forall j :: 0 <= j < |t.columns| ==>
      r.columns[j] == (if t.columns[j] == from then to else t.columns[j])
  {
    Grid(seq(|t.columns|, j requires 0 <= j < |t.columns| =>
           if t.columns[j] == from then to else t.columns[j]), t.rows)
  }

  /** Renames the single column at index `j`. */
  function RenameAt(t: Table, j: nat, to: string): (r: Table)
    requires j < |t.columns|
    ensures r.rows == t.rows && r.columns == t.columns[j := to]
  {
    Grid(t.columns[j := to], t.rows)
  }

  /** Replaces every cell of every column whose name satisfies `pick` by `f` of it. */
  function MapColumns(t: Table, pick: string -> bool, f: Value -> Value): (r: Table)
    ensures r.columns == t.columns && |r.rows| == |t.rows|
    ensures forall i, j :: 0 <= i < |t.rows| && 0 <= j < |t.columns| ==>
      r.rows[i][j] == (if pick(t.columns[j]) then f(t.rows[i][j]) else t.rows[i][j])
  {
    Grid(t.columns,
         seq(|t.rows|, i requires 0 <= i < |t.rows| =>
           seq(|t.columns|, j requires 0 <= j < |t.columns| =>
             if pick(t.columns[j]) then f(t.rows[i][j]) else t.rows[i][j])))
  }

  /** Mapping no column changes nothing. */
  lemma MapColumnsNone(t: Table, pick: string -> bool, f: Value -> Value)
    requires forall j :: 0 <= j < |t.columns| ==> !pick(t.columns[j])
    ensures MapColumns(t, pick, f) == t
  {
    var r := MapColumns(t, pick, f);
    forall i | 0 <= i < |t.rows| ensures r.rows[i] == t.rows[i] {
    }
  }

  /** Replaces every cell of the column at index `j` by `f` of it. */
  function MapAt(t: Table, j: nat, f: Value -> Value): (r: Table)
    requires j < |t.columns|
    ensures r.columns == t.columns && |r.rows| == |t.rows|
    ensures forall i, k :: 0 <= i < |t.rows| && 0 <= k < |t.columns| ==>
      r.rows[i][k] == (if k == j then f(t.rows[i][k]) else t.rows[i][k])
  {
    Grid(t.columns,
         seq(|t.rows|, i requires 0 <= i < |t.rows| => t.rows[i][j := f(t.rows[i][j])]))
  }

  /** `df[name] = v` with a scalar: overwrite the column called `name`, or append it. */
  function SetColumn(t: Table, name: string, v: Value): (r: Table)
    ensures |r.rows| == |t.rows|
    ensures name in t.columns ==> r.columns == t.columns
    ensures name !in t.columns ==> r.columns == t.columns + [name]
    ensures forall i, j :: 0 <= i < |t.rows| && 0 <= j < |t.columns| && t.columns[j] != name ==>
      r.rows[i][j] == t.rows[i][j]
    ensures forall i :: 0 <= i < |t.rows| ==> Cell(r, i, name) == v
  {
    match IndexOf(t.columns, name)
    case Some(j) =>
      Grid(t.columns, seq(|t.rows|, i requires 0 <= i < |t.rows| => t.rows[i][j := v]))
    case None =>
      var r := Grid(t.columns + [name], seq(|t.rows|, i requires 0 <= i < |t.rows| => t.rows[i] + [v]));
      assert forall i :: 0 <= i < |t.rows| ==> Cell(r, i, name) == v by {
        assert IndexOf(r.columns, name) == Some(|t.columns|) by {
          assert r.columns[..|t.columns|] == t.columns;
        }
      }
      r
  }

  /** Keeps the rows satisfying `keep`, in their order. */
  function FilterRows(t: Table, keep: seq<Value> -> bool): (r: Table)
    ensures r.columns == t.columns
    ensures r.rows == Filter(t.rows, keep)
  {
    var rows := Filter(t.rows, keep);
    assert forall i :: 0 <= i < |rows| ==> rows[i] in t.rows;
    Grid(t.columns, rows)
  }

  /** A row laid out under the column list `cols` (by name; NaN where absent). */
  function Relayout(t: Table, cols: seq<string>): (rows: seq<seq<Value>>)
    ensures |rows| == |t.rows|
    ensures forall i :: 0 <= i < |t.rows| ==> |rows[i]| == |cols|
    ensures forall i, k :: 0 <= i < |t.rows| && 0 <= k < |cols| ==> rows[i][k] == Cell(t, i, cols[k])
  {
    seq(|t.rows|, i requires 0 <= i < |t.rows| =>
      seq(|cols|, k requires 0 <= k < |cols| => Cell(t, i, cols[k])))
  }

  /** `pd.concat([a, b], ignore_index=True, sort=False)`: rows of `a` then rows of
      `b` under the union of their columns in order of first appearance. */
  function Concat(a: Table, b: Table): (r: Table)
    ensures r.columns == Distinct(a.columns + b.columns)
    ensures r.rows == Relayout(a, r.columns) + Relayout(b, r.columns)
  {
    var cols := Distinct(a.columns + b.columns);
    Grid(cols, Relayout(a, cols) + Relayout(b, cols))
  }

  /** A cell read through the concatenation is the cell of the source row. */
  lemma ConcatCell(a: Table, b: Table, i: nat, name: string)
    requires i < |a.rows| + |b.rows|
    requires name in a.columns + b.columns
    ensures i < |a.rows| ==> Cell(Concat(a, b), i, name) == Cell(a, i, name)
    ensures i >= |a.rows| ==> Cell(Concat(a, b), i, name) == Cell(b, i - |a.rows|, name)
  {
    var r := Concat(a, b);
    var k := IndexOf(r.columns, name).value;
    assert r.rows[i][k] == Cell(Concat(a, b), i, name);
  }
}
