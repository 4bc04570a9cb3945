/** `merge_marketing_business` (src/data_processor.py): an outer join of the
    daily marketing table with the business feed on `date` alone, every missing
    cell filled with 0, then a sort by (date, channel). A date present only in the
    business feed gets channel 0, which sorts before every channel name. */
module Merging {
  import opened Base
  import opened Seqs
  import opened Sorting
  import opened Metrics
  import opened Aggregation

  /** The business feed's figures for one day. */
  datatype Business = Business(orders: real, newOrders: real, newCustomers: real,
                               totalRevenue: real, grossProfit: real, cogs: real)

  datatype BizRow = BizRow(date: int, figures: Business)

  /** The channel cell after `fillna(0)`: a channel name, or the 0 that fills it on
      a date only the business feed has. */
  datatype ChannelCell = ZeroFill | Named(name: string)

  /** A row of the final dataset. */
  datatype FinalRow = FinalRow(date: int, channel: ChannelCell, counts: Counts, ratios: Ratios,
                               business: Business)

  const NoBusiness := Business(0.0, 0.0, 0.0, 0.0, 0.0, 0.0)
  const NoRatios := Ratios(0.0, 0.0, 0.0, 0.0)

  function SameDate(d: int): BizRow -> bool
  {
    (b: BizRow) => b.date == d
  }

  function DailyDates(daily: seq<DailyRow>): seq<int>
  {
    Map(daily, (l: DailyRow) => l.date)
  }

  /** A marketing row joined to one business row's figures. */
  function Joined(l: DailyRow, figures: Business): FinalRow
  {
    FinalRow(l.date, Named(l.channel), l.counts, l.ratios, figures)
  }

  /** The rows one marketing row yields: one per business row of its date, or a
      single row with zero figures when the business feed lacks that date. */
  function RowsFor(l: DailyRow, biz: seq<BizRow>): (r: seq<FinalRow>)
    ensures |r| > 0
  {
    var ms := Filter(biz, SameDate(l.date));
    if ms == [] then [Joined(l, NoBusiness)]
    else Map(ms, (b: BizRow) => Joined(l, b.figures))
  }

  function LeftRows(daily: seq<DailyRow>, biz: seq<BizRow>): seq<FinalRow>
  {
    if daily == [] then [] else RowsFor(daily[0], biz) + LeftRows(daily[1..], biz)
  }

  /** A business row whose date has no marketing row: zero counts and channel 0. */
  function BusinessOnly(b: BizRow): FinalRow
  {
    FinalRow(b.date, ZeroFill, NoCounts, NoRatios, b.figures)
  }

  function RightOnlyRows(daily: seq<DailyRow>, biz: seq<BizRow>): seq<FinalRow>
  {
    var ds := DailyDates(daily);
    Map(Filter(biz, (b: BizRow) => b.date !in ds), BusinessOnly)
  }

  /** `merge(..., on='date', how='outer').fillna(0)`, before sorting. */
  function OuterJoin(daily: seq<DailyRow>, biz: seq<BizRow>): seq<FinalRow>
  {
    LeftRows(daily, biz) + RightOnlyRows(daily, biz)
  }

  // ---------------------------------------------------------------------------
  // Sort order

  /** pandas orders the mixed channel column numbers first, then strings. */
  predicate ChannelLe(a: ChannelCell, b: ChannelCell)
  {
    match (a, b)
    case (ZeroFill, _) => true
    case (Named(_), ZeroFill) => false
    case (Named(x), Named(y)) => StrLe(x, y)
  }

  /** `sort_values(['date', 'channel'])`. */
  predicate RowLe(a: FinalRow, b: FinalRow)
  {
    a.date < b.date || (a.date == b.date && ChannelLe(a.channel, b.channel))
  }

  lemma RowLeTotalPreorder()
    ensures TotalPreorder(RowLe)
  {
    forall a: FinalRow, b: FinalRow ensures RowLe(a, b) || RowLe(b, a) {
      if a.channel.Named? && b.channel.Named? {
        StrLeTotal(a.channel.name, b.channel.name);
      }
    }
    forall a: FinalRow, b: FinalRow, c: FinalRow | RowLe(a, b) && RowLe(b, c) ensures RowLe(a, c) {
      if a.channel.Named? && b.channel.Named? && c.channel.Named? {
        if StrLe(a.channel.name, b.channel.name) && StrLe(b.channel.name, c.channel.name) {
          StrLeTrans(a.channel.name, b.channel.name, c.channel.name);
        }
      }
    }
  }

  /** `merge_marketing_business` after cleaning the business feed. */
  function MergeMarketingBusiness(daily: seq<DailyRow>, biz: seq<BizRow>): seq<FinalRow>
  {
    Sort(OuterJoin(daily, biz), RowLe)
  }

  // ---------------------------------------------------------------------------
  // Properties

  /** The merged table is ordered by (date, channel) and holds exactly the joined rows. */
  lemma MergeSorted(daily: seq<DailyRow>, biz: seq<BizRow>)
    ensures var out := MergeMarketingBusiness(daily, biz);
      && (forall i, j :: 0 <= i < j < |out| ==> RowLe(out[i], out[j]))
      && multiset(out) == multiset(OuterJoin(daily, biz))
  {
    RowLeTotalPreorder();
    SortSpec(OuterJoin(daily, biz), RowLe);
  }

  lemma {:induction false} LeftRowsMember(daily: seq<DailyRow>, biz: seq<BizRow>, i: nat, r: FinalRow)
    requires i < |daily| && r in RowsFor(daily[i], biz)
    ensures r in LeftRows(daily, biz)
    decreases i
  {
    if i > 0 {
      LeftRowsMember(daily[1..], biz, i - 1, r);
    }
  }

  lemma MergeMember(daily: seq<DailyRow>, biz: seq<BizRow>, r: FinalRow)
    requires r in OuterJoin(daily, biz)
    ensures r in MergeMarketingBusiness(daily, biz)
  {
    var out := MergeMarketingBusiness(daily, biz);
    assert multiset(out) == multiset(OuterJoin(daily, biz));
    assert r in multiset(out);
  }

  /** Business figures are copied onto every marketing row of their date, the
      `Total` row included: one merged row per matching pair. */
  lemma MergeCopiesBusiness(daily: seq<DailyRow>, biz: seq<BizRow>, i: nat, b: BizRow)
    requires i < |daily| && b in biz && b.date == daily[i].date
    ensures Joined(daily[i], b.figures) in MergeMarketingBusiness(daily, biz)
  {
    var l := daily[i];
    var ms := Filter(biz, SameDate(l.date));
    assert b in ms;
    var k :| 0 <= k < |ms| && ms[k] == b;
    assert RowsFor(l, biz)[k] == Joined(l, b.figures);
    LeftRowsMember(daily, biz, i, Joined(l, b.figures));
    MergeMember(daily, biz, Joined(l, b.figures));
  }

  /** A marketing row whose date the business feed lacks keeps its values, with
      every business figure filled with 0. */
  lemma MergeMarketingOnly(daily: seq<DailyRow>, biz: seq<BizRow>, i: nat)
    requires i < |daily| && forall b :: b in biz ==> b.date != daily[i].date
    ensures Joined(daily[i], NoBusiness) in MergeMarketingBusiness(daily, biz)
  {
    var l := daily[i];
    FilterNone(biz, SameDate(l.date));
    LeftRowsMember(daily, biz, i, Joined(l, NoBusiness));
    MergeMember(daily, biz, Joined(l, NoBusiness));
  }

  /** A business row whose date has no marketing row yields one merged row with
      channel 0 and every marketing figure 0. */
  lemma MergeBusinessOnly(daily: seq<DailyRow>, biz: seq<BizRow>, b: BizRow)
    requires b in biz && forall l :: l in daily ==> l.date != b.date
    ensures BusinessOnly(b) in MergeMarketingBusiness(daily, biz)
  {
    var ds := DailyDates(daily);
    assert b.date !in ds;
    var keep := Filter(biz, (x: BizRow) => x.date !in ds);
    assert b in keep;
    var k :| 0 <= k < |keep| && keep[k] == b;
    assert RightOnlyRows(daily, biz)[k] == BusinessOnly(b);
    MergeMember(daily, biz, BusinessOnly(b));
  }

  lemma {:induction false} LeftRowsNamed(daily: seq<DailyRow>, biz: seq<BizRow>, r: FinalRow)
    requires r in LeftRows(daily, biz)
    ensures r.channel.Named?
    ensures exists l :: (l in daily && r.date == l.date && r.channel == Named(l.channel) &&
                         r.counts == l.counts && r.ratios == l.ratios)
    decreases |daily|
  {
    var first := RowsFor(daily[0], biz);
    if r in first {
      var ms := Filter(biz, SameDate(daily[0].date));
      if ms != [] {
        var k :| 0 <= k < |first| && first[k] == r;
        assert r == Joined(daily[0], ms[k].figures);
      }
      assert daily[0] in daily;
    } else {
      LeftRowsNamed(daily[1..], biz, r);
      var l :| l in daily[1..] && r.date == l.date && r.channel == Named(l.channel) &&
        r.counts == l.counts && r.ratios == l.ratios;
      assert l in daily;
    }
  }

  /** Every merged row with channel 0 comes from a business row on a date without
      marketing rows and carries no marketing figures; every other merged row
      carries the values of a marketing row of its date. */
  lemma MergeOrigin(daily: seq<DailyRow>, biz: seq<BizRow>, r: FinalRow)
    requires r in MergeMarketingBusiness(daily, biz)
    ensures r.channel == ZeroFill ==>
      && r.counts == NoCounts && r.ratios == NoRatios
      && (forall l :: l in daily ==> l.date != r.date)
      && exists b :: b in biz && b.date == r.date && r.business == b.figures
    ensures r.channel.Named? ==>
      exists l :: (l in daily && r.date == l.date && r.channel == Named(l.channel) &&
                   r.counts == l.counts && r.ratios == l.ratios)
  {
    var joined := OuterJoin(daily, biz);
    assert multiset(MergeMarketingBusiness(daily, biz)) == multiset(joined);
    assert r in multiset(joined);
    if r in LeftRows(daily, biz) {
      LeftRowsNamed(daily, biz, r);
    } else {
      var ds := DailyDates(daily);
      var keep := Filter(biz, (x: BizRow) => x.date !in ds);
      var right := RightOnlyRows(daily, biz);
      assert r in right;
      var k :| 0 <= k < |right| && right[k] == r;
      assert keep[k] in keep;
      forall l | l in daily ensures l.date != r.date {
        var j :| 0 <= j < |daily| && daily[j] == l;
        assert ds[j] == l.date;
      }
    }
  }
}
