/** `MarketPulseDataProcessor` (src/data_processor.py): the cleaning methods run
    their coercion loops over a working copy, `combine_marketing_data` records
    the combined frame in `marketingCombined`, `merge_marketing_business` records
    the merged table in `finalDataset`, and `process_all_data` runs the pipeline
    and reports success or failure. */
module DataProcessor {
  import opened Base
  import opened Seqs
  import opened Frames
  import opened Cleaning
  import opened Metrics
  import opened Aggregation
  import opened Merging
  import opened Combining

  /** What `process_all_data` returns: the three tables with the covered date
      range and day count, or a failure with no tables at all. */
  datatype Outcome =
    | Processed(marketingRaw: Table, marketingDaily: seq<DailyRow>, finalDataset: seq<FinalRow>,
                dateRange: Option<(int, int)>, totalDays: nat)
    | Failed(error: CleanError)

  function FinalDates(rows: seq<FinalRow>): seq<int>
  {
    Map(rows, (r: FinalRow) => r.date)
  }

  /** The first and last date of the final table (`NaT` for an empty one). */
  function DateRange(rows: seq<FinalRow>): (r: Option<(int, int)>)
    ensures r.None? <==> rows == []
    ensures r.Some? ==> r.value.0 <= r.value.1
    ensures r.Some? ==> r.value.0 in FinalDates(rows) && r.value.1 in FinalDates(rows)
    ensures r.Some? ==> forall x :: x in rows ==> r.value.0 <= x.date <= r.value.1
  {
    if rows == [] then None
    else
      var ds := FinalDates(rows);
      assert forall x :: x in rows ==> x.date in ds;
      Some((MinOf(ds), MaxOf(ds)))
  }

  /** Steps 2 and 3 of the pipeline: derived metrics, then daily aggregation. */
  function DailyOf(combined: Table): seq<DailyRow>
  {
    AggregateDailyMarketing(CreateDerivedMetrics(AdRows(combined)))
  }

  /** `merge_marketing_business`: clean the business feed, then merge. */
  function MergeSpec(daily: seq<DailyRow>, biz: Table, p: Parsers): (r: Result<seq<FinalRow>, CleanError>)
    ensures r.Failure? <==> DateIndex(biz).None?
  {
    match CleanBusiness(biz, p)
    case Failure(e) => Failure(e)
    case Success(b) => Success(Merging.MergeMarketingBusiness(daily, BizRows(b)))
  }

  /** `process_all_data`. */
  function ProcessSpec(fb: Table, gg: Table, tt: Table, biz: Table, p: Parsers): Outcome
  {
    match CombineMarketing(fb, gg, tt, p)
    case Failure(e) => Failed(e)
    case Success(raw) =>
      var daily := DailyOf(raw);
      match MergeSpec(daily, biz, p)
      case Failure(e) => Failed(e)
      case Success(final) =>
        Processed(raw, daily, final, DateRange(final), |Distinct(FinalDates(final))|)
  }

  /** The pipeline fails exactly when one of the four feeds has no column whose
      name contains `date`; on success the date range spans every final row and
      the day count is the number of distinct dates. */
  lemma ProcessOutcome(fb: Table, gg: Table, tt: Table, biz: Table, p: Parsers)
    ensures var o := ProcessSpec(fb, gg, tt, biz, p);
      && (o.Failed? <==>
            DateIndex(fb).None? || DateIndex(gg).None? || DateIndex(tt).None? || DateIndex(biz).None?)
      && (o.Processed? ==>
            && (o.dateRange.None? <==> o.finalDataset == [])
            && (o.dateRange.Some? ==> forall x :: x in o.finalDataset ==>
                  o.dateRange.value.0 <= x.date <= o.dateRange.value.1)
            && o.totalDays <= |o.finalDataset|
            && (forall d :: d in FinalDates(o.finalDataset) <==> d in Distinct(FinalDates(o.finalDataset))))
  {
    CombineFails(fb, gg, tt, p);
    match CombineMarketing(fb, gg, tt, p)
    case Failure(_) =>
    case Success(raw) =>
      match MergeSpec(DailyOf(raw), biz, p)
      case Failure(_) =>
      case Success(final) =>
        FinalRange(final);
  }

  /** The date range and day count of any final table. */
  lemma FinalRange(final: seq<FinalRow>)
    ensures DateRange(final).None? <==> final == []
    ensures DateRange(final).Some? ==> forall x :: x in final ==>
      DateRange(final).value.0 <= x.date <= DateRange(final).value.1
    ensures |Distinct(FinalDates(final))| <= |final|
    ensures forall d :: d in FinalDates(final) <==> d in Distinct(FinalDates(final))
  {
  }

  class MarketPulseDataProcessor {
    var marketingCombined: Option<Table>
    var finalDataset: Option<seq<FinalRow>>

    constructor()
      ensures marketingCombined == None && finalDataset == None
    {
      marketingCombined := None;
      finalDataset := None;
    }

    /** `clean_marketing_data(df, channel_name)`. */
    method CleanMarketingData(df: Table, channel: string, p: Parsers) returns (r: Result<Table, CleanError>)
      ensures r == CleanMarketing(df, channel, p)
    {
      var n := NormalizeColumns(df);
      var found := DateColumnIndex(n.columns);
      if found.None? {
        return Failure(NoDateColumn);
      }
      var j := found.value;
      var dated := RenameAt(MapAt(n, j, v => ToDay(v, p)), j, "date");
      var labelled := SetColumn(dated, "channel", Text(channel));
      assert labelled == Labelled(df, channel, p);
      var cur := CoerceNumericColumns(labelled, MarketingNumericColumns, p);
      var renamed := RenameSchema(cur);
      DatePosition(df, p, renamed, channel);
      r := Success(DropMissingDates(renamed));
    }

    /** `clean_business_data(df)`. */
    method CleanBusinessData(df: Table, p: Parsers) returns (r: Result<Table, CleanError>)
      ensures r == CleanBusiness(df, p)
    {
      var n := NormalizeColumns(df);
      var found := DateColumnIndex(n.columns);
      if found.None? {
        return Failure(NoDateColumn);
      }
      var j := found.value;
      var dated := RenameAt(MapAt(n, j, v => ToDay(v, p)), j, "date");
      var cur := CoerceNumericColumns(dated, BusinessNumericColumns, p);
      BusinessDatePosition(df, p);
      r := Success(DropMissingDates(cur));
    }

    /** `combine_marketing_data`: records the combined frame when every feed cleans. */
    method CombineMarketingData(fb: Table, gg: Table, tt: Table, p: Parsers) returns (r: Result<Table, CleanError>)
      modifies this
      ensures r == CombineMarketing(fb, gg, tt, p)
      ensures marketingCombined == (if r.Success? then Some(r.value) else old(marketingCombined))
      ensures finalDataset == old(finalDataset)
    {
      r := CombineFeeds(fb, gg, tt, p);
      if r.Success? {
        marketingCombined := Some(r.value);
      }
    }

    /** The body of `combine_marketing_data`: cleans the three feeds in turn,
        stopping at the first that fails, then stacks them and adds the missing
        count columns. */
    method CombineFeeds(fb: Table, gg: Table, tt: Table, p: Parsers) returns (r: Result<Table, CleanError>)
      ensures r == CombineMarketing(fb, gg, tt, p)
    {
      var f := CleanMarketingData(fb, "Facebook", p);
      if f.Failure? {
        return Failure(f.error);
      }
      var g := CleanMarketingData(gg, "Google", p);
      if g.Failure? {
        return Failure(g.error);
      }
      var t := CleanMarketingData(tt, "TikTok", p);
      if t.Failure? {
        return Failure(t.error);
      }
      var stacked := Stack(f.value, g.value, t.value);
      var cur := AddRequiredColumns(stacked);
      CombineValue(fb, gg, tt, p, f.value, g.value, t.value);
      r := Success(cur);
    }

    /** The loop of `combine_marketing_data` that adds each missing required
        column as zeros. */
    method AddRequiredColumns(stacked: Table) returns (cur: Table)
      ensures cur == AddMissing(stacked, RequiredColumns)
    {
      cur := stacked;
      AddNothing(stacked);
      var k := 0;
      while k < |RequiredColumns|
        invariant 0 <= k <= |RequiredColumns|
        invariant cur == AddMissing(stacked, RequiredColumns[..k])
      {
        var col := RequiredColumns[k];
        assert RequiredColumns[..k + 1] == RequiredColumns[..k] + [col];
        assert col !in RequiredColumns[..k];
        AddStep(stacked, RequiredColumns[..k], col);
        if col !in cur.columns {
          cur := SetColumn(cur, col, Num(0.0));
        }
        k := k + 1;
      }
      assert RequiredColumns[..k] == RequiredColumns;
    }

    /** `merge_marketing_business`: records the merged table when the business
        feed cleans. */
    method MergeMarketingBusiness(daily: seq<DailyRow>, biz: Table, p: Parsers)
      returns (r: Result<seq<FinalRow>, CleanError>)
      modifies this
      ensures r == MergeSpec(daily, biz, p)
      ensures finalDataset == (if r.Success? then Some(r.value) else old(finalDataset))
      ensures marketingCombined == old(marketingCombined)
    {
      var b := CleanBusinessData(biz, p);
      if b.Failure? {
        return Failure(b.error);
      }
      var merged := Merging.MergeMarketingBusiness(daily, BizRows(b.value));
      finalDataset := Some(merged);
      r := Success(merged);
    }

    /** `process_all_data`: on success both fields hold the returned tables; on
        failure no table is returned, and `marketingCombined` keeps whatever the
        combination step managed to record. */
    method ProcessAllData(fb: Table, gg: Table, tt: Table, biz: Table, p: Parsers) returns (o: Outcome)
      modifies this
      ensures o == ProcessSpec(fb, gg, tt, biz, p)
      ensures o.Processed? ==> marketingCombined == Some(o.marketingRaw) && finalDataset == Some(o.finalDataset)
      ensures o.Failed? ==> finalDataset == old(finalDataset)
      ensures CombineMarketing(fb, gg, tt, p).Failure? ==> marketingCombined == old(marketingCombined)
      ensures CombineMarketing(fb, gg, tt, p).Success? ==>
        marketingCombined == Some(CombineMarketing(fb, gg, tt, p).value)
    {
      var c := CombineMarketingData(fb, gg, tt, p);
      if c.Failure? {
        return Failed(c.error);
      }
      var daily := DailyOf(c.value);
      var m := MergeMarketingBusiness(daily, biz, p);
      if m.Failure? {
        return Failed(m.error);
      }
      var final := m.value;
      o := Processed(c.value, daily, final, DateRange(final), |Distinct(FinalDates(final))|);
    }
  }
}
