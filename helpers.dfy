/** `Helpers` (utils/helpers.py): the date-range controls, the date filter, the
    required-column check, and the NaN and zero cases of the currency and
    percentage formatters. A frame's `date` column holds days; any other cell in
    it (NaT) matches no date range. */
module Helpers {
  import opened Base
  import opened Seqs
  import opened Frames

  // ---------------------------------------------------------------------------
  // format_currency, format_percentage

  /** A displayed value: fixed text, or a number rendered by a format pattern
      (the rendering itself is not modelled). */
  datatype Shown = Literal(text: string) | Rendered(pattern: string, value: real)

  /** `format_currency`: "$0" for NaN (`None`) and for zero. */
  function FormatCurrency(v: Option<real>): (r: Shown)
    ensures r == Literal("$0") <==> v.None? || v.value == 0.0
    ensures r.Rendered? ==> v.Some? && r.value == v.value && r.value != 0.0
  {
    if v.None? || v.value == 0.0 then Literal("$0") else Rendered("${:,.0f}", v.value)
  }

  /** `format_percentage`: "0.0%" for NaN only; zero is rendered like any number. */
  function FormatPercentage(v: Option<real>): (r: Shown)
    ensures r == Literal("0.0%") <==> v.None?
    ensures v.Some? ==> r.Rendered? && r.value == v.value
  {
    if v.None? then Literal("0.0%") else Rendered("{:.1f}%", v.value)
  }

  // ---------------------------------------------------------------------------
  // get_date_range_options

  datatype DateOptions = DateOptions(minDate: Option<int>, maxDate: Option<int>,
                                     defaultStart: Option<int>, defaultEnd: Option<int>)

  function HasDayAt(j: nat): seq<Value> -> bool
  {
    (row: seq<Value>) => j < |row| && row[j].Day?
  }

  function DayAt(j: nat): seq<Value> -> int
  {
    (row: seq<Value>) => if j < |row| && row[j].Day? then row[j].d else 0
  }

  /** The days in column `j`, skipping NaT. */
  function DaysIn(t: Table, j: nat): seq<int>
  {
    Map(Filter(t.rows, HasDayAt(j)), DayAt(j))
  }

  /** `get_date_range_options`: nothing without a `date` column; otherwise the
      earliest and latest day, which are also the defaults (NaT when there is no
      day at all). */
  function GetDateRangeOptions(t: Table): Option<DateOptions>
  {
    match IndexOf(t.columns, "date")
    case None => None
    case Some(j) =>
      var days := DaysIn(t, j);
      if days == [] then Some(DateOptions(None, None, None, None))
      else
        var lo := MinOf(days);
        var hi := MaxOf(days);
        Some(DateOptions(Some(lo), Some(hi), Some(lo), Some(hi)))
  }

  /** The `date` cell of a row holds a day. */
  predicate IsDay(v: Value)
  {
    v.Day?
  }

  /** The days listed are exactly the days in column `j`. */
  lemma DaysInMember(t: Table, j: nat, d: int)
    requires j < |t.columns|
    ensures d in DaysIn(t, j) <==> exists i :: 0 <= i < |t.rows| && t.rows[i][j] == Day(d)
  {
    var dated := Filter(t.rows, HasDayAt(j));
    var days := DaysIn(t, j);
    if d in days {
      var k :| 0 <= k < |days| && days[k] == d;
      assert dated[k] in t.rows;
      var i :| 0 <= i < |t.rows| && t.rows[i] == dated[k];
      assert t.rows[i][j] == Day(d);
    }
    if i :| 0 <= i < |t.rows| && t.rows[i][j] == Day(d) {
      assert t.rows[i] in dated;
      var k :| 0 <= k < |dated| && dated[k] == t.rows[i];
      assert days[k] == d;
    }
  }

  /** Without a `date` column there are no options; otherwise the defaults are the
      bounds, which are NaT exactly when the column holds no day. */
  lemma DateRangeShape(t: Table)
    ensures GetDateRangeOptions(t).None? <==> "date" !in t.columns
    ensures var o := GetDateRangeOptions(t);
      o.Some? ==>
        && o.value.defaultStart == o.value.minDate && o.value.defaultEnd == o.value.maxDate
        && (o.value.minDate.None? <==> forall i :: 0 <= i < |t.rows| ==> !IsDay(Cell(t, i, "date")))
  {
    var o := GetDateRangeOptions(t);
    if o.Some? {
      var j := IndexOf(t.columns, "date").value;
      var days := DaysIn(t, j);
      if days != [] {
        assert days[0] in days;
        DaysInMember(t, j, days[0]);
        var i :| 0 <= i < |t.rows| && t.rows[i][j] == Day(days[0]);
        assert IsDay(Cell(t, i, "date"));
      }
      forall i | 0 <= i < |t.rows| && IsDay(Cell(t, i, "date")) ensures days != [] {
        assert Cell(t, i, "date") == t.rows[i][j];
        DaysInMember(t, j, t.rows[i][j].d);
      }
    }
  }

  /** The earliest day is no later than the latest, both occur in the `date`
      column, and every day of the column lies between them. */
  lemma DateRangeBounds(t: Table)
    requires GetDateRangeOptions(t).Some? && GetDateRangeOptions(t).value.minDate.Some?
    ensures var o := GetDateRangeOptions(t).value;
      && o.maxDate.Some?
      && o.minDate.value <= o.maxDate.value
      && (exists i :: 0 <= i < |t.rows| && Cell(t, i, "date") == Day(o.minDate.value))
      && (exists i :: 0 <= i < |t.rows| && Cell(t, i, "date") == Day(o.maxDate.value))
      && forall i :: 0 <= i < |t.rows| && IsDay(Cell(t, i, "date")) ==>
           o.minDate.value <= Cell(t, i, "date").d <= o.maxDate.value
  {
    var o := GetDateRangeOptions(t).value;
    var j := IndexOf(t.columns, "date").value;
    var days := DaysIn(t, j);
    DaysInMember(t, j, o.minDate.value);
    DaysInMember(t, j, o.maxDate.value);
    var lo :| 0 <= lo < |t.rows| && t.rows[lo][j] == Day(o.minDate.value);
    var hi :| 0 <= hi < |t.rows| && t.rows[hi][j] == Day(o.maxDate.value);
    assert Cell(t, lo, "date") == Day(o.minDate.value);
    assert Cell(t, hi, "date") == Day(o.maxDate.value);
    forall i | 0 <= i < |t.rows| && IsDay(Cell(t, i, "date"))
      ensures o.minDate.value <= Cell(t, i, "date").d <= o.maxDate.value
    {
      assert Cell(t, i, "date") == t.rows[i][j];
      DaysInMember(t, j, t.rows[i][j].d);
    }
  }

  // ---------------------------------------------------------------------------
  // filter_data_by_date

  /** A `date` cell inside `[start, end]`; NaT is never inside. */
  predicate InDateRange(v: Value, start: int, end: int)
  {
    v.Day? && start <= v.d <= end
  }

  function DayWithin(j: nat, start: int, end: int): seq<Value> -> bool
  {
    (row: seq<Value>) => j < |row| && InDateRange(row[j], start, end)
  }

  /** `filter_data_by_date`: the rows dated between `start` and `end` inclusive;
      a frame without a `date` column comes back unchanged. */
  function FilterDataByDate(t: Table, start: int, end: int): Table
  {
    match IndexOf(t.columns, "date")
    case None => t
    case Some(j) => FilterRows(t, DayWithin(j, start, end))
  }

  /** The filter keeps the columns and exactly the rows dated within the range,
      in their order. */
  lemma FilterDataByDateSpec(t: Table, start: int, end: int)
    ensures var r := FilterDataByDate(t, start, end);
      && r.columns == t.columns
      && IsSubsequence(r.rows, t.rows)
      && ("date" !in t.columns ==> r == t)
      && ("date" in t.columns ==>
            forall i :: 0 <= i < |t.rows| ==> (t.rows[i] in r.rows <==> InDateRange(Cell(t, i, "date"), start, end)))
      && ("date" in t.columns ==>
            forall i :: 0 <= i < |t.rows| ==>
              multiset(r.rows)[t.rows[i]] ==
                (if InDateRange(Cell(t, i, "date"), start, end) then multiset(t.rows)[t.rows[i]] else 0))
  {
    var r := FilterDataByDate(t, start, end);
    match IndexOf(t.columns, "date")
    case None =>
      assert r.rows == t.rows;
      IsSubsequenceRefl(t.rows);
    case Some(j) =>
      FilterIsSubsequence(t.rows, DayWithin(j, start, end));
      forall i | 0 <= i < |t.rows|
        ensures multiset(r.rows)[t.rows[i]] ==
          (if InDateRange(Cell(t, i, "date"), start, end) then multiset(t.rows)[t.rows[i]] else 0)
      {
        FilterCount(t.rows, DayWithin(j, start, end), t.rows[i]);
      }
  }

  /** An empty range keeps nothing. */
  lemma FilterEmptyRange(t: Table, start: int, end: int)
    requires "date" in t.columns && start > end
    ensures FilterDataByDate(t, start, end).rows == []
  {
    var j := IndexOf(t.columns, "date").value;
    FilterNone(t.rows, DayWithin(j, start, end));
  }

  // ---------------------------------------------------------------------------
  // validate_data_completeness

  /** `validate_data_completeness`: the required columns the frame lacks, in
      list order; complete exactly when there are none. */
  method ValidateDataCompleteness(t: Table, required: seq<string>) returns (ok: bool, missing: seq<string>)
    ensures missing == MissingColumns(t.columns, required)
    ensures ok <==> forall c :: c in required ==> c in t.columns
  {
    missing := [];
    for i := 0 to |required|
      invariant missing == MissingColumns(t.columns, required[..i])
    {
      var col := required[i];
      assert required[..i + 1] == required[..i] + [col];
      FilterAppend(required[..i], [col], AbsentFrom(t.columns));
      if col !in t.columns {
        missing := missing + [col];
      }
    }
    assert required[..|required|] == required;
    ok := |missing| == 0;
    MissingColumnsSpec(t.columns, required);
  }
}
