/** The per-source cleaning of `MarketPulseDataProcessor` (src/data_processor.py):
    column names are lower-cased with spaces turned into underscores, the first
    column whose name contains `date` is parsed and renamed `date`, marketing rows
    are labelled with their channel, the listed numeric columns are coerced (a
    failed coercion gives 0), two columns are renamed, and rows without a date
    are dropped. These functions are the specification the cleaning methods of
    `DataProcessor.MarketPulseDataProcessor` are proved against. */
module Cleaning {
  import opened Base
  import opened Seqs
  import opened Frames

  /** `df.dropna(subset=['date'])` raises `KeyError` when no column was renamed
      to `date`, that is, when no column name contains `date`. */
  datatype CleanError = NoDateColumn

  const MarketingNumericColumns: seq<string> :=
    ["impressions", "impression", "clicks", "spend", "attributed_revenue"]

  const BusinessNumericColumns: seq<string> :=
    ["orders", "new_orders", "new_customers", "total_revenue", "gross_profit", "cogs"]

  // ---------------------------------------------------------------------------
  // Steps

  function NormalizeColumns(t: Table): (r: Table)
    ensures r.rows == t.rows && |r.columns| == |t.columns|
    ensures forall j :: 0 <= j < |t.columns| ==> r.columns[j] == NormalizeName(t.columns[j])
  {
    Grid(Map(t.columns, NormalizeName), t.rows)
  }

  /** The first column whose name contains `date`. */
  function DateColumnIndex(cols: seq<string>): (r: Option<nat>)
    ensures r.Some? ==> r.value < |cols| && Contains(cols[r.value], "date")
    ensures r.Some? ==> forall k :: 0 <= k < r.value ==> !Contains(cols[k], "date")
    ensures r.None? ==> forall k :: 0 <= k < |cols| ==> !Contains(cols[k], "date")
    decreases |cols|
  {
    if cols == [] then None
    else if Contains(cols[0], "date") then Some(0)
    else
      match DateColumnIndex(cols[1..])
      case None => None
      case Some(k) => Some(k + 1)
  }

  /** After normalisation and date handling: the index of the `date` column. */
  function DateIndex(t: Table): Option<nat>
  {
    DateColumnIndex(NormalizeColumns(t).columns)
  }

  /** Steps 1-3: normalise names, parse the first date column, rename it `date`. */
  function WithDateColumn(t: Table, p: Parsers): (r: Result<Table, CleanError>)
    ensures r.Failure? <==> DateIndex(t).None?
    ensures r.Success? ==> |r.value.rows| == |t.rows| && |r.value.columns| == |t.columns|
  {
    var n := NormalizeColumns(t);
    match DateColumnIndex(n.columns)
    case None => Failure(NoDateColumn)
    case Some(j) => Success(RenameAt(MapAt(n, j, v => ToDay(v, p)), j, "date"))
  }

  /** Every listed column coerced to numbers: what the coercion loop over `names`
      leaves behind (`CoerceStep` is one pass of that loop). */
  function CoerceColumns(t: Table, names: seq<string>, p: Parsers): (r: Table)
    ensures r.columns == t.columns && |r.rows| == |t.rows|
    ensures forall i, k :: 0 <= i < |t.rows| && 0 <= k < |t.columns| ==>
      r.rows[i][k] == (if t.columns[k] in names then ToNumber(t.rows[i][k], p) else t.rows[i][k])
  {
    MapColumns(t, c => c in names, v => ToNumber(v, p))
  }

  /** `df.rename(columns={'impression': 'impressions', 'attributed_revenue': 'revenue'})`. */
  function SchemaName(c: string): string
  {
    if c == "impression" then "impressions"
    else if c == "attributed_revenue" then "revenue"
    else c
  }

  function RenameSchema(t: Table): (r: Table)
    ensures r.rows == t.rows && |r.columns| == |t.columns|
    ensures forall j :: 0 <= j < |t.columns| ==> r.columns[j] == SchemaName(t.columns[j])
  {
    RenameColumns(RenameColumns(t, "impression", "impressions"), "attributed_revenue", "revenue")
  }

  /** `df.dropna(subset=['date'])`. */
  function DropMissingDates(t: Table): (r: Table)
    requires "date" in t.columns
    ensures r.columns == t.columns
    ensures r.rows == Filter(t.rows, HasDate(IndexOf(t.columns, "date").value))
  {
    FilterRows(t, HasDate(IndexOf(t.columns, "date").value))
  }

  function HasDate(j: nat): seq<Value> -> bool
  {
    (row: seq<Value>) => j < |row| && !row[j].Null?
  }

  // ---------------------------------------------------------------------------
  // The two cleaners

  /** `clean_marketing_data` up to the channel label (steps 1-4). */
  function Labelled(t: Table, channel: string, p: Parsers): Table
    requires DateIndex(t).Some?
  {
    SetColumn(WithDateColumn(t, p).value, "channel", Text(channel))
  }

  /** `clean_marketing_data` before its final `dropna`. */
  function PrepareMarketing(t: Table, channel: string, p: Parsers): (r: Result<Table, CleanError>)
    ensures r.Failure? <==> DateIndex(t).None?
  {
    if DateIndex(t).None? then Failure(NoDateColumn)
    else Success(RenameSchema(CoerceColumns(Labelled(t, channel, p), MarketingNumericColumns, p)))
  }

  /** `clean_marketing_data(df, channel)`. */
  function CleanMarketing(t: Table, channel: string, p: Parsers): Result<Table, CleanError>
  {
    match PrepareMarketing(t, channel, p)
    case Failure(e) => Failure(e)
    case Success(prepared) =>
      DatePosition(t, p, prepared, channel);
      Success(DropMissingDates(prepared))
  }

  /** `clean_business_data` before its final `dropna`. */
  function PrepareBusiness(t: Table, p: Parsers): (r: Result<Table, CleanError>)
    ensures r.Failure? <==> DateIndex(t).None?
  {
    match WithDateColumn(t, p)
    case Failure(e) => Failure(e)
    case Success(dated) => Success(CoerceColumns(dated, BusinessNumericColumns, p))
  }

  /** `clean_business_data(df)`. */
  function CleanBusiness(t: Table, p: Parsers): Result<Table, CleanError>
  {
    match PrepareBusiness(t, p)
    case Failure(e) => Failure(e)
    case Success(prepared) =>
      BusinessDatePosition(t, p);
      Success(DropMissingDates(prepared))
  }

  /** The coercion loop shared by both cleaners: each listed column present in
      the frame is coerced to numbers, a failed coercion giving 0. */
  method CoerceNumericColumns(t: Table, names: seq<string>, p: Parsers) returns (cur: Table)
    ensures cur == CoerceColumns(t, names, p)
  {
    cur := t;
    CoerceNothing(t, p);
    assert names[..0] == [];
    for k := 0 to |names|
      invariant cur == CoerceColumns(t, names[..k], p)
    {
      CoerceNext(t, names, k, p);
      if names[k] in cur.columns {
        cur := MapColumns(cur, IsColumn(names[k]), Numeric(p));
      }
    }
    assert names[..|names|] == names;
  }

  // ---------------------------------------------------------------------------
  // Where the date column ends up

  /** The `date` column is the first column whose normalised name contained
      `date`, and no earlier column is called `date`. */
  lemma WithDateColumnPosition(t: Table, p: Parsers)
    requires DateIndex(t).Some?
    ensures var j := DateIndex(t).value;
      var d := WithDateColumn(t, p).value;
      && j < |d.columns|
      && IndexOf(d.columns, "date") == Some(j)
      && (forall k :: 0 <= k < |d.columns| && k != j ==> d.columns[k] == NormalizeName(t.columns[k]))
      && (forall i :: 0 <= i < |t.rows| ==> d.rows[i][j] == ToDay(t.rows[i][j], p))
      && (forall i, k :: 0 <= i < |t.rows| && 0 <= k < |d.columns| && k != j ==> d.rows[i][k] == t.rows[i][k])
  {
    var j := DateIndex(t).value;
    var d := WithDateColumn(t, p).value;
    var n := NormalizeColumns(t);
    assert Contains("date", "date");
    forall k | 0 <= k < j ensures d.columns[k] != "date" {
      assert d.columns[k] == n.columns[k];
    }
    assert "date" !in d.columns[..j];
    IndexOfAt(d.columns, "date", j);
  }

  /** The frame before `dropna` is the labelled frame, coerced and then renamed. */
  lemma PrepareMarketingParts(t: Table, channel: string, p: Parsers)
    requires DateIndex(t).Some?
    ensures var l := Labelled(t, channel, p);
      var c := CoerceColumns(l, MarketingNumericColumns, p);
      var pr := PrepareMarketing(t, channel, p).value;
      && pr.rows == c.rows && pr.columns == Map(c.columns, SchemaName) && c.columns == l.columns
  {
  }

  lemma DatePosition(t: Table, p: Parsers, prepared: Table, channel: string)
    requires PrepareMarketing(t, channel, p) == Success(prepared)
    ensures "date" in prepared.columns
    ensures IndexOf(prepared.columns, "date") == DateIndex(t)
  {
    var l := Labelled(t, channel, p);
    assert IndexOf(l.columns, "date") == DateIndex(t) by {
      LabelledCells(t, channel, p);
    }
    assert prepared.columns == Map(l.columns, SchemaName) by {
      PrepareMarketingParts(t, channel, p);
    }
    SchemaKeepsDate(l.columns, prepared.columns);
  }

  /** Renaming to the schema leaves the `date` column where it was. */
  lemma SchemaKeepsDate(cols: seq<string>, renamed: seq<string>)
    requires renamed == Map(cols, SchemaName) && IndexOf(cols, "date").Some?
    ensures "date" in renamed && IndexOf(renamed, "date") == IndexOf(cols, "date")
  {
    IndexOfSchema(cols, "date");
    assert renamed[IndexOf(cols, "date").value] == "date";
  }

  /** The frame after the channel label keeps the `date` column in place and
      every normalised name before the appended label. */
  lemma LabelledCells(t: Table, channel: string, p: Parsers)
    requires DateIndex(t).Some?
    ensures var j := DateIndex(t).value;
      var l := Labelled(t, channel, p);
      && j < |t.columns| && |t.columns| <= |l.columns| && |l.rows| == |t.rows|
      && l.columns[..|t.columns|] == WithDateColumn(t, p).value.columns
      && IndexOf(l.columns, "date") == Some(j)
      && (forall i :: 0 <= i < |t.rows| ==> Cell(l, i, "channel") == Text(channel))
  {
    WithDateColumnPosition(t, p);
    var d := WithDateColumn(t, p).value;
    var l := Labelled(t, channel, p);
    if "channel" !in d.columns {
      IndexOfPrefix(d.columns, ["channel"], "date");
      assert l.columns[..|d.columns|] == d.columns;
    }
  }

  /** One column name of the labelled frame: `date` at the date position, the
      normalised name elsewhere. */
  lemma LabelledColumn(t: Table, channel: string, p: Parsers, k: nat)
    requires DateIndex(t).Some? && k < |t.columns|
    ensures var l := Labelled(t, channel, p);
      && k < |l.columns|
      && l.columns[k] == (if k == DateIndex(t).value then "date" else NormalizeName(t.columns[k]))
  {
    LabelledCells(t, channel, p);
    var d := WithDateColumn(t, p).value;
    assert Labelled(t, channel, p).columns[k] == d.columns[k];
  }

  /** One cell of the labelled frame: the date cell parsed, and any cell outside
      the date column and a `channel` column untouched. */
  lemma LabelledCell(t: Table, channel: string, p: Parsers, i: nat, k: nat)
    requires DateIndex(t).Some? && i < |t.rows| && k < |t.columns|
    ensures var l := Labelled(t, channel, p);
      && k < |l.columns| && i < |l.rows|
      && (k == DateIndex(t).value ==> l.rows[i][k] == ToDay(t.rows[i][k], p))
      && (k != DateIndex(t).value && NormalizeName(t.columns[k]) != "channel" ==>
            l.rows[i][k] == t.rows[i][k])
  {
    WithDateColumnPosition(t, p);
    var d := WithDateColumn(t, p).value;
    ChannelHasNoDate();
    assert d.rows[i][k] == (if k == DateIndex(t).value then ToDay(t.rows[i][k], p) else t.rows[i][k]);
  }

  lemma BusinessDatePosition(t: Table, p: Parsers)
    requires DateIndex(t).Some?
    ensures "date" in PrepareBusiness(t, p).value.columns
    ensures IndexOf(PrepareBusiness(t, p).value.columns, "date") == DateIndex(t)
  {
    WithDateColumnPosition(t, p);
  }

  // ---------------------------------------------------------------------------
  // What cleaning does to names and cells

  /** One pass of the coercion loop, `df[col] = pd.to_numeric(df[col],
      errors='coerce').fillna(0)`, extends the set of coerced columns by `name`;
      coercing an already coerced column changes nothing. */
  lemma CoerceStep(t: Table, names: seq<string>, name: string, p: Parsers)
    ensures MapColumns(CoerceColumns(t, names, p), IsColumn(name), Numeric(p))
         == CoerceColumns(t, names + [name], p)
  {
    var a := MapColumns(CoerceColumns(t, names, p), IsColumn(name), Numeric(p));
    var b := CoerceColumns(t, names + [name], p);
    forall i | 0 <= i < |t.rows| ensures a.rows[i] == b.rows[i] {
      forall k | 0 <= k < |t.columns| ensures a.rows[i][k] == b.rows[i][k] {
        assert t.columns[k] in names + [name] <==> t.columns[k] in names || t.columns[k] == name;
      }
    }
  }

  /** Before the first pass nothing is coerced. */
  /** One pass of the coercion loop, guard included: coerce `name` when the
      working frame has it, else leave the frame as it is. */
  lemma CoerceNext(t: Table, names: seq<string>, k: nat, p: Parsers)
    requires k < |names|
    ensures var cur := CoerceColumns(t, names[..k], p);
      var name := names[k];
      CoerceColumns(t, names[..k + 1], p)
        == (if name in cur.columns then MapColumns(cur, IsColumn(name), Numeric(p)) else cur)
  {
    assert names[..k + 1] == names[..k] + [names[k]];
    if names[k] in t.columns {
      CoerceStep(t, names[..k], names[k], p);
    } else {
      CoerceAbsent(t, names[..k], names[k], p);
    }
  }

  /** The column test of one coercion pass. */
  function IsColumn(name: string): string -> bool
  {
    c => c == name
  }

  /** `pd.to_numeric(errors='coerce').fillna(0)` on one cell. */
  function Numeric(p: Parsers): Value -> Value
  {
    v => ToNumber(v, p)
  }

  lemma CoerceNothing(t: Table, p: Parsers)
    ensures CoerceColumns(t, [], p) == t
  {
    MapColumnsNone(t, c => c in [], v => ToNumber(v, p));
  }

  /** A pass over a column the frame lacks changes nothing (the loop's
      `if col in df_clean.columns` guard). */
  lemma CoerceAbsent(t: Table, names: seq<string>, name: string, p: Parsers)
    requires name !in t.columns
    ensures CoerceColumns(t, names + [name], p) == CoerceColumns(t, names, p)
  {
    var a := CoerceColumns(t, names + [name], p);
    var b := CoerceColumns(t, names, p);
    forall i | 0 <= i < |t.rows| ensures a.rows[i] == b.rows[i] {
      forall k | 0 <= k < |t.columns| ensures a.rows[i][k] == b.rows[i][k] {
        assert t.columns[k] != name;
        assert t.columns[k] in names + [name] <==> t.columns[k] in names;
      }
    }
  }

  /** Renaming that sends nothing else to `name`, and `name` to itself, keeps the
      first position of `name`. */
  lemma IndexOfSchema(cols: seq<string>, name: string)
    requires name !in ["impressions", "impression", "revenue", "attributed_revenue"]
    ensures IndexOf(Map(cols, SchemaName), name) == IndexOf(cols, name)
  {
    var m := Map(cols, SchemaName);
    assert forall k :: 0 <= k < |cols| ==> m[k] == SchemaName(cols[k]);
    assert forall k :: 0 <= k < |cols| ==> (m[k] == name <==> cols[k] == name);
    match IndexOf(cols, name)
    case None =>
      assert name !in m;
    case Some(j) =>
      assert name !in cols[..j];
      assert forall k :: 0 <= k < j ==> m[k] != name by {
        assert forall k :: 0 <= k < j ==> cols[k] == cols[..j][k];
      }
      assert name !in m[..j];
      IndexOfAt(m, name, j);
  }

  lemma ChannelHasNoDate()
    ensures !Contains("channel", "date")
  {
    if Contains("channel", "date") {
      ContainsFirst("channel", "date");
    }
  }

  /** One cell of `clean_marketing_data`'s frame before `dropna`: the date column
      is parsed, listed numeric columns are coerced (a failed coercion gives 0)
      and every other column other than the label is untouched. */
  lemma PrepareMarketingCell(t: Table, channel: string, p: Parsers, i: nat, k: nat)
    requires DateIndex(t).Some? && i < |t.rows| && k < |t.columns|
    ensures var pr := PrepareMarketing(t, channel, p).value;
      && k < |pr.columns| && i < |pr.rows|
      && (k == DateIndex(t).value ==> pr.rows[i][k] == ToDay(t.rows[i][k], p))
      && (k != DateIndex(t).value && NormalizeName(t.columns[k]) != "channel" ==>
            pr.rows[i][k] == (if NormalizeName(t.columns[k]) in MarketingNumericColumns
                              then ToNumber(t.rows[i][k], p) else t.rows[i][k]))
  {
    var l := Labelled(t, channel, p);
    var c := CoerceColumns(l, MarketingNumericColumns, p);
    PrepareMarketingParts(t, channel, p);
    LabelledColumn(t, channel, p, k);
    LabelledCell(t, channel, p, i, k);
    assert c.rows[i][k] == (if l.columns[k] in MarketingNumericColumns then ToNumber(l.rows[i][k], p) else l.rows[i][k]);
  }

  /** Every row of `clean_marketing_data`'s frame before `dropna` carries the label. */
  lemma PrepareMarketingLabel(t: Table, channel: string, p: Parsers, i: nat)
    requires DateIndex(t).Some? && i < |t.rows|
    ensures i < |PrepareMarketing(t, channel, p).value.rows|
    ensures Cell(PrepareMarketing(t, channel, p).value, i, "channel") == Text(channel)
  {
    var l := Labelled(t, channel, p);
    var c := CoerceColumns(l, MarketingNumericColumns, p);
    var pr := PrepareMarketing(t, channel, p).value;
    assert pr.rows == c.rows && c.columns == l.columns && |l.rows| == |t.rows| &&
      IndexOf(pr.columns, "channel") == IndexOf(l.columns, "channel") by {
      assert pr.columns == Map(c.columns, SchemaName);
      IndexOfSchema(c.columns, "channel");
    }
    assert Cell(l, i, "channel") == Text(channel) by {
      LabelledCells(t, channel, p);
    }
    var x := IndexOf(l.columns, "channel").value;
    assert "channel" !in MarketingNumericColumns;
    assert c.rows[i][x] == l.rows[i][x];
  }

  /** `clean_marketing_data` succeeds exactly when some normalised column name
      contains `date`. */
  lemma CleanMarketingFails(t: Table, channel: string, p: Parsers)
    ensures CleanMarketing(t, channel, p).Failure? <==>
      forall k :: 0 <= k < |t.columns| ==> !Contains(NormalizeName(t.columns[k]), "date")
  {
    var n := NormalizeColumns(t);
    assert forall k :: 0 <= k < |t.columns| ==> n.columns[k] == NormalizeName(t.columns[k]);
  }

  /** The column names `clean_marketing_data` produces: each input name lower-cased
      with spaces as underscores, the first name containing `date` replaced by
      `date`, `impression` and `attributed_revenue` renamed, and `channel`
      appended when no column was called so. */
  lemma CleanMarketingColumns(t: Table, channel: string, p: Parsers)
    requires CleanMarketing(t, channel, p).Success?
    ensures var out := CleanMarketing(t, channel, p).value;
      var j := DateIndex(t).value;
      && |out.columns| == |t.columns| + (if "channel" in Map(t.columns, NormalizeName) then 0 else 1)
      && (forall k :: 0 <= k < |t.columns| ==>
            out.columns[k] == (if k == j then "date" else SchemaName(NormalizeName(t.columns[k]))))
      && "channel" in out.columns && "date" in out.columns
  {
    var j := DateIndex(t).value;
    var l := Labelled(t, channel, p);
    var out := CleanMarketing(t, channel, p).value;
    assert out.columns == Map(l.columns, SchemaName) by {
      PrepareMarketingParts(t, channel, p);
    }
    LabelledShape(t, channel, p);
    RenamedColumns(l.columns, out.columns, t.columns, j);
  }

  /** Renaming to the schema after labelling: `date` and `channel` keep their
      names, every other input name is renamed. */
  lemma RenamedColumns(labelled: seq<string>, renamed: seq<string>, input: seq<string>, j: nat)
    requires renamed == Map(labelled, SchemaName)
    requires j < |input| <= |labelled| && "channel" in labelled
    requires forall k :: 0 <= k < |input| ==>
      labelled[k] == (if k == j then "date" else NormalizeName(input[k]))
    ensures |renamed| == |labelled|
    ensures forall k :: 0 <= k < |input| ==>
      renamed[k] == (if k == j then "date" else SchemaName(NormalizeName(input[k])))
    ensures "channel" in renamed && "date" in renamed
  {
    var x :| 0 <= x < |labelled| && labelled[x] == "channel";
    assert renamed[x] == SchemaName("channel");
    assert renamed[j] == SchemaName("date");
  }

  /** The labelled frame has one more column than the input exactly when no
      column was called `channel`, and has a `channel` column either way. */
  lemma LabelledShape(t: Table, channel: string, p: Parsers)
    requires DateIndex(t).Some?
    ensures var l := Labelled(t, channel, p);
      && |l.columns| == |t.columns| + (if "channel" in Map(t.columns, NormalizeName) then 0 else 1)
      && "channel" in l.columns
      && (forall k :: 0 <= k < |t.columns| ==>
            l.columns[k] == (if k == DateIndex(t).value then "date" else NormalizeName(t.columns[k])))
  {
    var d := WithDateColumn(t, p).value;
    var names := Map(t.columns, NormalizeName);
    forall k | 0 <= k < |t.columns| ensures d.columns[k] == "channel" <==> names[k] == "channel" {
      LabelledColumn(t, channel, p, k);
      ChannelHasNoDate();
    }
    assert "channel" in d.columns <==> "channel" in names;
    LabelledCells(t, channel, p);
    forall k | 0 <= k < |t.columns|
      ensures Labelled(t, channel, p).columns[k] ==
        (if k == DateIndex(t).value then "date" else NormalizeName(t.columns[k]))
    {
      LabelledColumn(t, channel, p, k);
    }
  }

  /** The rows `clean_marketing_data` keeps: exactly those whose date parsed, in
      input order; each carries a parsed day and the channel label. */
  lemma CleanMarketingRows(t: Table, channel: string, p: Parsers)
    requires CleanMarketing(t, channel, p).Success?
    ensures var out := CleanMarketing(t, channel, p).value;
      var j := DateIndex(t).value;
      var pr := PrepareMarketing(t, channel, p).value;
      && out.rows == Filter(pr.rows, HasDate(j))
      && |out.rows| <= |t.rows|
      && IndexOf(out.columns, "date") == Some(j)
      && (forall i :: 0 <= i < |out.rows| ==> out.rows[i][j].Day?)
      && (forall i :: 0 <= i < |out.rows| ==> Cell(out, i, "channel") == Text(channel))
  {
    var j := DateIndex(t).value;
    var pr := PrepareMarketing(t, channel, p).value;
    var out := CleanMarketing(t, channel, p).value;
    DatePosition(t, p, pr, channel);
    forall i | 0 <= i < |out.rows|
      ensures out.rows[i][j].Day? && Cell(out, i, "channel") == Text(channel)
    {
      assert out.rows[i] in pr.rows;
      var i' :| 0 <= i' < |pr.rows| && pr.rows[i'] == out.rows[i];
      PrepareMarketingCell(t, channel, p, i', j);
      PrepareMarketingLabel(t, channel, p, i');
    }
  }

  /** One cell of `clean_business_data`'s frame before `dropna`: the date column
      is parsed, listed numeric columns are coerced and the rest untouched. */
  lemma PrepareBusinessCell(t: Table, p: Parsers, i: nat, k: nat)
    requires DateIndex(t).Some? && i < |t.rows| && k < |t.columns|
    ensures var pr := PrepareBusiness(t, p).value;
      && pr.columns == WithDateColumn(t, p).value.columns && i < |pr.rows|
      && (k == DateIndex(t).value ==> pr.rows[i][k] == ToDay(t.rows[i][k], p))
      && (k != DateIndex(t).value ==>
            pr.rows[i][k] == (if NormalizeName(t.columns[k]) in BusinessNumericColumns
                              then ToNumber(t.rows[i][k], p) else t.rows[i][k]))
  {
    WithDateColumnPosition(t, p);
    var d := WithDateColumn(t, p).value;
    assert "date" !in BusinessNumericColumns;
  }

  /** The rows `clean_business_data` keeps: exactly those whose date parsed, in
      input order, each with a parsed day. */
  lemma CleanBusinessRows(t: Table, p: Parsers)
    requires CleanBusiness(t, p).Success?
    ensures var out := CleanBusiness(t, p).value;
      var j := DateIndex(t).value;
      var pr := PrepareBusiness(t, p).value;
      && out.rows == Filter(pr.rows, HasDate(j))
      && |out.rows| <= |t.rows|
      && IndexOf(out.columns, "date") == Some(j)
      && (forall i :: 0 <= i < |out.rows| ==> out.rows[i][j].Day?)
  {
    var j := DateIndex(t).value;
    var pr := PrepareBusiness(t, p).value;
    var out := CleanBusiness(t, p).value;
    BusinessDatePosition(t, p);
    forall i | 0 <= i < |out.rows| ensures out.rows[i][j].Day? {
      assert out.rows[i] in pr.rows;
      var i' :| 0 <= i' < |pr.rows| && pr.rows[i'] == out.rows[i];
      PrepareBusinessCell(t, p, i', j);
    }
  }
}
