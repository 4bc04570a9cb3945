/** `MarketingAnalytics` (src/analytics.py): channel summaries, daily trends,
    business impact, top performers, seasonal patterns and the letter grade, all
    pure functions of the final dataset. A row counts as a channel row when its
    channel is not `Total`; the rows with channel 0 that the merge creates for
    business-only dates are therefore summarised as a channel of their own. */
module Analytics {
  import opened Base
  import opened Seqs
  import opened Sorting
  import opened Metrics
  import opened Aggregation
  import opened Merging

  const TotalChannel := Named(TotalLabel)

  /** One row of `calculate_channel_performance`. */
  datatype ChannelSummary = ChannelSummary(channel: ChannelCell, counts: Counts, ratios: Ratios)

  function CountsOf(r: FinalRow): Counts
  {
    r.counts
  }

  function ChannelOf(r: FinalRow): ChannelCell
  {
    r.channel
  }

  function SummaryChannel(s: ChannelSummary): ChannelCell
  {
    s.channel
  }

  function IsTotal(r: FinalRow): bool
  {
    r.channel == TotalChannel
  }

  function NotTotal(r: FinalRow): bool
  {
    r.channel != TotalChannel
  }

  function OnChannel(ch: ChannelCell): FinalRow -> bool
  {
    (r: FinalRow) => r.channel == ch
  }

  /** `data[data['channel'] != 'Total']`. */
  function ChannelRows(data: seq<FinalRow>): seq<FinalRow>
  {
    Filter(data, NotTotal)
  }

  /** `data[data['channel'] == 'Total']`. */
  function TotalRows(data: seq<FinalRow>): seq<FinalRow>
  {
    Filter(data, IsTotal)
  }

  // ---------------------------------------------------------------------------
  // calculate_channel_performance

  /** The distinct non-`Total` channels. */
  function Channels(data: seq<FinalRow>): seq<ChannelCell>
  {
    Distinct(Map(ChannelRows(data), ChannelOf))
  }

  /** Counts summed over the rows of one channel. */
  function ChannelSum(data: seq<FinalRow>, ch: ChannelCell): Counts
  {
    SumCounts(Map(Filter(ChannelRows(data), OnChannel(ch)), CountsOf))
  }

  /** A channel's summary: summed counts and ratios of those sums. */
  function Summarize(data: seq<FinalRow>, ch: ChannelCell): ChannelSummary
  {
    var c := ChannelSum(data, ch);
    ChannelSummary(ch, c, Derive(c))
  }

  function Summaries(data: seq<FinalRow>): (r: seq<ChannelSummary>)
    ensures |r| == |Channels(data)|
    ensures forall i :: 0 <= i < |r| ==> r[i] == Summarize(data, Channels(data)[i])
  {
    var chs := Channels(data);
    seq(|chs|, i requires 0 <= i < |chs| => Summarize(data, chs[i]))
  }

  predicate SpendGe(a: ChannelSummary, b: ChannelSummary)
  {
    a.counts.spend >= b.counts.spend
  }

  /** `calculate_channel_performance`: the summaries sorted by spend, descending. */
  function ChannelPerformance(data: seq<FinalRow>): seq<ChannelSummary>
  {
    Sort(Summaries(data), SpendGe)
  }

  lemma SpendGeTotalPreorder()
    ensures TotalPreorder(SpendGe)
  {
  }

  /** The summaries are ordered by spend, largest first, and are a permutation
      of the per-channel summaries. */
  lemma ChannelPerformanceSorted(data: seq<FinalRow>)
    ensures var perf := ChannelPerformance(data);
      && multiset(perf) == multiset(Summaries(data))
      && forall i, j :: 0 <= i < j < |perf| ==> perf[i].counts.spend >= perf[j].counts.spend
  {
    var perf := ChannelPerformance(data);
    SpendGeTotalPreorder();
    SortSpec(Summaries(data), SpendGe);
    forall i, j | 0 <= i < j < |perf| ensures perf[i].counts.spend >= perf[j].counts.spend {
      assert SpendGe(perf[i], perf[j]);
    }
  }

  /** A channel is listed exactly when some non-`Total` row carries it. */
  lemma ChannelsMember(data: seq<FinalRow>, ch: ChannelCell)
    ensures ch in Channels(data) <==> exists r :: r in data && r.channel == ch && ch != TotalChannel
  {
    var rows := ChannelRows(data);
    if ch in Channels(data) {
      var k :| 0 <= k < |rows| && Map(rows, ChannelOf)[k] == ch;
      assert rows[k] in rows;
    }
    if r :| r in data && r.channel == ch && ch != TotalChannel {
      assert r in rows;
      var k :| 0 <= k < |rows| && rows[k] == r;
      assert Map(rows, ChannelOf)[k] == ch;
    }
  }

  /** Exactly one summary row per non-`Total` channel present in the data. */
  lemma ChannelPerformanceChannels(data: seq<FinalRow>)
    ensures var chs := Map(ChannelPerformance(data), SummaryChannel);
      && NoDup(chs)
      && forall ch :: ch in chs <==> exists r :: r in data && r.channel == ch && ch != TotalChannel
  {
    var perf := ChannelPerformance(data);
    var sums := Summaries(data);
    assert multiset(perf) == multiset(sums);
    assert Map(sums, SummaryChannel) == Channels(data);
    MapPermutation(sums, perf, SummaryChannel);
    NoDupPermutation(Map(sums, SummaryChannel), Map(perf, SummaryChannel));
    forall ch ensures ch in Map(perf, SummaryChannel) <==> exists r :: r in data && r.channel == ch && ch != TotalChannel {
      assert ch in Map(perf, SummaryChannel) <==> ch in multiset(Map(perf, SummaryChannel));
      assert ch in Channels(data) <==> ch in multiset(Map(sums, SummaryChannel));
      ChannelsMember(data, ch);
    }
  }

  /** Each summary holds its channel's summed counts and the ratios of those sums. */
  lemma ChannelPerformanceSums(data: seq<FinalRow>, s: ChannelSummary)
    requires s in ChannelPerformance(data)
    ensures s.counts == ChannelSum(data, s.channel) && s.ratios == Derive(s.counts)
  {
    var sums := Summaries(data);
    assert s in multiset(sums);
    var k :| 0 <= k < |sums| && sums[k] == s;
  }

  // ---------------------------------------------------------------------------
  // calculate_daily_trends

  /** One row of `calculate_daily_trends`: a `Total` row with its 7-row means. */
  datatype TrendRow = TrendRow(row: FinalRow, spend7d: real, roas7d: real, revenue7d: real)

  function RowOf(x: TrendRow): FinalRow { x.row }

  predicate DateLe(a: FinalRow, b: FinalRow)
  {
    a.date <= b.date
  }

  /** The positions a trailing window of 7 rows ending at `i` covers. */
  function WindowStart(i: nat): nat
  {
    if i >= 6 then i - 6 else 0
  }

  /** `m` is the mean of the window `w`. */
  predicate IsMeanOf(m: real, w: seq<real>)
  {
    m * |w| as real == Sum(w)
  }

  /** `rolling(window=7, min_periods=1).mean()`. */
  function Rolling(xs: seq<real>): (r: seq<real>)
    ensures |r| == |xs|
    ensures forall i :: 0 <= i < |xs| ==> IsMeanOf(r[i], xs[WindowStart(i)..i + 1])
  {
    seq(|xs|, i requires 0 <= i < |xs| => Mean(xs[WindowStart(i)..i + 1]))
  }

  /** A rolling mean never looks ahead: it depends only on the values up to its row. */
  lemma RollingNoLookahead(xs: seq<real>, ys: seq<real>, i: nat)
    requires i < |xs| && i < |ys| && xs[..i + 1] == ys[..i + 1]
    ensures Rolling(xs)[i] == Rolling(ys)[i]
  {
    assert xs[WindowStart(i)..i + 1] == xs[..i + 1][WindowStart(i)..];
    assert ys[WindowStart(i)..i + 1] == ys[..i + 1][WindowStart(i)..];
  }

  function SpendOf(r: FinalRow): real { r.counts.spend }
  function RevenueOf(r: FinalRow): real { r.counts.revenue }
  function RoasOf(r: FinalRow): real { r.ratios.roas }

  /** The `Total` rows in date order. */
  function DatedTotals(data: seq<FinalRow>): (t: seq<FinalRow>)
    ensures multiset(t) == multiset(TotalRows(data))
  {
    Sort(TotalRows(data), DateLe)
  }

  function DailyTrends(data: seq<FinalRow>): (r: seq<TrendRow>)
    ensures |r| == |TotalRows(data)|
    ensures Map(r, RowOf) == DatedTotals(data)
    ensures forall i :: 0 <= i < |r| ==> r[i].spend7d == Rolling(Map(DatedTotals(data), SpendOf))[i]
    ensures forall i :: 0 <= i < |r| ==> r[i].roas7d == Rolling(Map(DatedTotals(data), RoasOf))[i]
    ensures forall i :: 0 <= i < |r| ==> r[i].revenue7d == Rolling(Map(DatedTotals(data), RevenueOf))[i]
  {
    var t := DatedTotals(data);
    var spend := Rolling(Map(t, SpendOf));
    var roas := Rolling(Map(t, RoasOf));
    var revenue := Rolling(Map(t, RevenueOf));
    seq(|t|, i requires 0 <= i < |t| => TrendRow(t[i], spend[i], roas[i], revenue[i]))
  }

  lemma DateLeTotalPreorder()
    ensures TotalPreorder(DateLe)
  {
  }

  /** The trend rows are the `Total` rows, in date order. */
  lemma DailyTrendsRows(data: seq<FinalRow>)
    ensures var tr := DailyTrends(data);
      && multiset(Map(tr, RowOf)) == multiset(TotalRows(data))
      && (forall i, j :: 0 <= i < j < |tr| ==> tr[i].row.date <= tr[j].row.date)
  {
    var t := DatedTotals(data);
    var tr := DailyTrends(data);
    DateLeTotalPreorder();
    SortSpec(TotalRows(data), DateLe);
    forall i, j | 0 <= i < j < |tr| ensures tr[i].row.date <= tr[j].row.date {
      assert DateLe(t[i], t[j]);
    }
  }

  /** Each trend row's 7-day spend, ROAS and revenue are the means of its own
      and up to six preceding rows' values. */
  lemma DailyTrendsWindow(data: seq<FinalRow>, i: nat)
    requires i < |DailyTrends(data)|
    ensures var tr := DailyTrends(data);
      var rows := Map(tr, RowOf);
      && tr[i].row.channel == TotalChannel
      && IsMeanOf(tr[i].spend7d, Map(rows, SpendOf)[WindowStart(i)..i + 1])
      && IsMeanOf(tr[i].roas7d, Map(rows, RoasOf)[WindowStart(i)..i + 1])
      && IsMeanOf(tr[i].revenue7d, Map(rows, RevenueOf)[WindowStart(i)..i + 1])
  {
    var t := DatedTotals(data);
    var tr := DailyTrends(data);
    assert tr[i].row == t[i] by {
      assert Map(tr, RowOf)[i] == t[i];
    }
    assert t[i] in multiset(TotalRows(data));
    assert IsTotal(t[i]) by {
      assert t[i] in TotalRows(data);
    }
    assert Map(tr, RowOf) == t;
    assert IsMeanOf(Rolling(Map(t, SpendOf))[i], Map(t, SpendOf)[WindowStart(i)..i + 1]);
    assert IsMeanOf(Rolling(Map(t, RoasOf))[i], Map(t, RoasOf)[WindowStart(i)..i + 1]);
    assert IsMeanOf(Rolling(Map(t, RevenueOf))[i], Map(t, RevenueOf)[WindowStart(i)..i + 1]);
  }

  // ---------------------------------------------------------------------------
  // calculate_business_impact

  datatype Impact = Impact(totalMarketingSpend: real, totalAttributedRevenue: real,
                           totalBusinessRevenue: real, attributionRate: real, overallRoas: real,
                           avgDailySpend: real, avgDailyRevenue: real, dataPeriodDays: nat)

  function BusinessRevenueOf(r: FinalRow): real { r.business.totalRevenue }

  /** `calculate_business_impact`: sums over the `Total` rows with zero-guarded
      ratios; the attribution rate is not clamped to 100. */
  function BusinessImpact(data: seq<FinalRow>): (r: Impact)
    ensures r.dataPeriodDays == |TotalRows(data)|
    ensures r.totalMarketingSpend == Sum(Map(TotalRows(data), SpendOf))
    ensures r.totalAttributedRevenue == Sum(Map(TotalRows(data), RevenueOf))
    ensures r.totalBusinessRevenue == Sum(Map(TotalRows(data), BusinessRevenueOf))
    ensures Guarded(r.attributionRate, 100.0 * r.totalAttributedRevenue, r.totalBusinessRevenue)
    ensures Guarded(r.overallRoas, r.totalAttributedRevenue, r.totalMarketingSpend)
    ensures Guarded(r.avgDailySpend, r.totalMarketingSpend, r.dataPeriodDays as real)
    ensures Guarded(r.avgDailyRevenue, r.totalAttributedRevenue, r.dataPeriodDays as real)
  {
    var t := TotalRows(data);
    var spend := Sum(Map(t, SpendOf));
    var attributed := Sum(Map(t, RevenueOf));
    var business := Sum(Map(t, BusinessRevenueOf));
    var days := |t| as real;
    // over the reals, `attributed / business * 100` is `100 * attributed / business`
    Impact(spend, attributed, business, Ratio(100.0 * attributed, business), Ratio(attributed, spend),
           Ratio(spend, days), Ratio(attributed, days), |t|)
  }

  /** Attributed revenue above business revenue gives a rate above 100. */
  lemma AttributionNotClamped(d: int)
    ensures var row := FinalRow(d, TotalChannel, Counts(0.0, 0.0, 1.0, 3.0), NoRatios,
                                Business(0.0, 0.0, 0.0, 1.0, 0.0, 0.0));
      BusinessImpact([row]).attributionRate == 300.0
  {
    var row := FinalRow(d, TotalChannel, Counts(0.0, 0.0, 1.0, 3.0), NoRatios,
                        Business(0.0, 0.0, 0.0, 1.0, 0.0, 0.0));
    assert TotalRows([row]) == [row];
    assert Map([row], RevenueOf) == [3.0];
    assert Map([row], BusinessRevenueOf) == [1.0];
    assert Sum([3.0]) == 3.0 + Sum([]);
    assert Sum([1.0]) == 1.0 + Sum([]);
  }

  /** Rows that are not `Total` rows, such as the channel-0 rows of business-only
      dates, do not change the business impact: their revenue is never counted. */
  lemma BusinessImpactIgnoresChannelRows(data: seq<FinalRow>, extra: seq<FinalRow>)
    requires forall r :: r in extra ==> r.channel != TotalChannel
    ensures BusinessImpact(data + extra) == BusinessImpact(data)
  {
    FilterAppend(data, extra, IsTotal);
    FilterNone(extra, IsTotal);
    assert TotalRows(data + extra) == TotalRows(data);
  }

  // ---------------------------------------------------------------------------
  // get_top_performers

  datatype Metric = SpendMetric | RevenueMetric | ImpressionsMetric | ClicksMetric
                  | RoasMetric | CtrMetric | CpcMetric | CpmMetric

  function MetricOf(s: ChannelSummary, m: Metric): real
  {
    match m
    case SpendMetric => s.counts.spend
    case RevenueMetric => s.counts.revenue
    case ImpressionsMetric => s.counts.impressions
    case ClicksMetric => s.counts.clicks
    case RoasMetric => s.ratios.roas
    case CtrMetric => s.ratios.ctr
    case CpcMetric => s.ratios.cpc
    case CpmMetric => s.ratios.cpm
  }

  function MetricGe(m: Metric): (ChannelSummary, ChannelSummary) -> bool
  {
    (a: ChannelSummary, b: ChannelSummary) => MetricOf(a, m) >= MetricOf(b, m)
  }

  /** `get_top_performers(metric, n)`: `nlargest(n, metric)` of the summaries. */
  function TopPerformers(data: seq<FinalRow>, m: Metric, n: nat): seq<ChannelSummary>
  {
    var sorted := Sort(ChannelPerformance(data), MetricGe(m));
    sorted[..if n <= |sorted| then n else |sorted|]
  }

  lemma MetricGeTotalPreorder(m: Metric)
    ensures TotalPreorder(MetricGe(m))
  {
  }

  /** `min(n, number of channels)` summaries, drawn from the channel summaries,
      largest metric first. */
  lemma TopPerformersSorted(data: seq<FinalRow>, m: Metric, n: nat)
    ensures var perf := ChannelPerformance(data);
      var top := TopPerformers(data, m, n);
      && |top| == (if n <= |perf| then n else |perf|)
      && multiset(top) <= multiset(perf)
      && forall i, j :: 0 <= i < j < |top| ==> MetricOf(top[i], m) >= MetricOf(top[j], m)
  {
    var perf := ChannelPerformance(data);
    var sorted := Sort(perf, MetricGe(m));
    MetricGeTotalPreorder(m);
    SortSpec(perf, MetricGe(m));
    var k := if n <= |sorted| then n else |sorted|;
    SortedPrefix(sorted, MetricGe(m), k);
    var top := sorted[..k];
    forall i, j | 0 <= i < j < k ensures MetricOf(top[i], m) >= MetricOf(top[j], m) {
      assert MetricGe(m)(top[i], top[j]);
    }
  }

  /** No summary left out has a larger metric than any chosen one. */
  lemma TopPerformersBeatRest(data: seq<FinalRow>, m: Metric, n: nat, a: ChannelSummary, b: ChannelSummary)
    requires a in TopPerformers(data, m, n)
    requires b in multiset(ChannelPerformance(data)) - multiset(TopPerformers(data, m, n))
    ensures MetricOf(a, m) >= MetricOf(b, m)
  {
    var perf := ChannelPerformance(data);
    var sorted := Sort(perf, MetricGe(m));
    MetricGeTotalPreorder(m);
    SortSpec(perf, MetricGe(m));
    var k := if n <= |sorted| then n else |sorted|;
    PrefixBeforeRest(sorted, MetricGe(m), k, a, b);
  }

  // ---------------------------------------------------------------------------
  // calculate_seasonal_patterns

  /** One row of the day-of-week table: mean spend, revenue and ROAS of that weekday. */
  datatype DowRow = DowRow(day: string, spend: real, revenue: real, roas: real)

  datatype Seasonal = Seasonal(best: DowRow, worst: DowRow, dow: seq<DowRow>)

  function OnWeekday(dayName: int -> string, name: string): FinalRow -> bool
  {
    (r: FinalRow) => dayName(r.date) == name
  }

  function WeekdayOf(dayName: int -> string): FinalRow -> string
  {
    (r: FinalRow) => dayName(r.date)
  }

  /** `d` holds the mean spend, revenue and ROAS of the `Total` rows falling on
      its weekday, of which there is at least one. */
  predicate IsWeekdayMeans(d: DowRow, totals: seq<FinalRow>, dayName: int -> string)
  {
    var g := Filter(totals, OnWeekday(dayName, d.day));
    && |g| > 0
    && IsMeanOf(d.spend, Map(g, SpendOf))
    && IsMeanOf(d.revenue, Map(g, RevenueOf))
    && IsMeanOf(d.roas, Map(g, RoasOf))
  }

  /** The means of one weekday's `Total` rows. */
  function DowAgg(totals: seq<FinalRow>, dayName: int -> string, name: string): (r: DowRow)
    requires name in Map(totals, WeekdayOf(dayName))
    ensures r.day == name && IsWeekdayMeans(r, totals, dayName)
  {
    var g := Filter(totals, OnWeekday(dayName, name));
    var k :| 0 <= k < |totals| && Map(totals, WeekdayOf(dayName))[k] == name;
    assert totals[k] in g;
    DowRow(name, Mean(Map(g, SpendOf)), Mean(Map(g, RevenueOf)), Mean(Map(g, RoasOf)))
  }

  /** Python's string comparison is a total preorder. */
  lemma StrLePreorder()
    ensures TotalPreorder(StrLe)
  {
    forall a, b ensures StrLe(a, b) || StrLe(b, a) {
      StrLeTotal(a, b);
    }
    forall a, b, c | StrLe(a, b) && StrLe(b, c) ensures StrLe(a, c) {
      StrLeTrans(a, b, c);
    }
  }

  /** The weekdays present, once each, in the sorted order `groupby` lists them. */
  function Weekdays(totals: seq<FinalRow>, dayName: int -> string): (r: seq<string>)
    ensures forall x :: x in r <==> x in Map(totals, WeekdayOf(dayName))
    ensures NoDup(r) && Sorted(r, StrLe)
  {
    var names := Distinct(Map(totals, WeekdayOf(dayName)));
    var r := Sort(names, StrLe);
    StrLePreorder();
    SortSpec(names, StrLe);
    NoDupPermutation(names, r);
    assert forall x :: x in r <==> x in multiset(names);
    r
  }

  /** `groupby('day_of_week').mean()`: one row per weekday present, in weekday
      order, each holding that weekday's means. */
  function DowTable(totals: seq<FinalRow>, dayName: int -> string): (r: seq<DowRow>)
    ensures |r| == |Weekdays(totals, dayName)|
    ensures forall i :: 0 <= i < |r| ==>
      r[i].day == Weekdays(totals, dayName)[i] && IsWeekdayMeans(r[i], totals, dayName)
  {
    var names := Weekdays(totals, dayName);
    seq(|names|, i requires 0 <= i < |names| => DowAgg(totals, dayName, names[i]))
  }

  /** The position of the first largest value (`idxmax`). */
  function ArgMax(xs: seq<real>): (k: nat)
    requires |xs| > 0
    ensures k < |xs|
    ensures forall i :: 0 <= i < |xs| ==> xs[i] <= xs[k]
    ensures forall i :: 0 <= i < k ==> xs[i] < xs[k]
  {
    if |xs| == 1 then 0
    else
      var k := ArgMax(xs[..|xs| - 1]);
      if xs[|xs| - 1] > xs[k] then |xs| - 1 else k
  }

  /** The position of the first smallest value (`idxmin`). */
  function ArgMin(xs: seq<real>): (k: nat)
    requires |xs| > 0
    ensures k < |xs|
    ensures forall i :: 0 <= i < |xs| ==> xs[k] <= xs[i]
    ensures forall i :: 0 <= i < k ==> xs[k] < xs[i]
  {
    if |xs| == 1 then 0
    else
      var k := ArgMin(xs[..|xs| - 1]);
      if xs[|xs| - 1] < xs[k] then |xs| - 1 else k
  }

  function DowRoas(d: DowRow): real { d.roas }

  /** `calculate_seasonal_patterns`: nothing under 30 `Total` rows; otherwise the
      weekday table with its best and worst weekday by mean ROAS. */
  function SeasonalPatterns(data: seq<FinalRow>, dayName: int -> string): Option<Seasonal>
  {
    var totals := TotalRows(data);
    if |totals| < 30 then None
    else
      var dow := DowTable(totals, dayName);
      assert totals[0] in totals;
      assert Map(totals, WeekdayOf(dayName))[0] in Weekdays(totals, dayName);
      var roas := Map(dow, DowRoas);
      Some(Seasonal(dow[ArgMax(roas)], dow[ArgMin(roas)], dow))
  }

  /** `d` is the first row of `dow` with the highest ROAS (`idxmax`). */
  predicate FirstHighest(dow: seq<DowRow>, d: DowRow)
  {
    exists i :: 0 <= i < |dow| && d == dow[i]
      && (forall j :: 0 <= j < |dow| ==> dow[j].roas <= d.roas)
      && (forall j :: 0 <= j < i ==> dow[j].roas < d.roas)
  }

  /** `d` is the first row of `dow` with the lowest ROAS (`idxmin`). */
  predicate FirstLowest(dow: seq<DowRow>, d: DowRow)
  {
    exists i :: 0 <= i < |dow| && d == dow[i]
      && (forall j :: 0 <= j < |dow| ==> d.roas <= dow[j].roas)
      && (forall j :: 0 <= j < i ==> dow[j].roas > d.roas)
  }

  /** The rows `ArgMax` and `ArgMin` pick over the ROAS column are the first
      highest and the first lowest. */
  lemma PickedExtremes(dow: seq<DowRow>)
    requires |dow| > 0
    ensures var roas := Map(dow, DowRoas);
      FirstHighest(dow, dow[ArgMax(roas)]) && FirstLowest(dow, dow[ArgMin(roas)])
  {
    var roas := Map(dow, DowRoas);
    assert forall j :: 0 <= j < |dow| ==> roas[j] == dow[j].roas;
    var hi := ArgMax(roas);
    var lo := ArgMin(roas);
    assert dow[hi] == dow[hi];
    assert dow[lo] == dow[lo];
  }

  /** With at least 30 `Total` rows: the weekday table holds each weekday's
      means; the best weekday is the first with the highest mean ROAS and the
      worst the first with the lowest. */
  lemma SeasonalSpec(data: seq<FinalRow>, dayName: int -> string)
    ensures SeasonalPatterns(data, dayName).None? <==> |TotalRows(data)| < 30
    ensures var s := SeasonalPatterns(data, dayName);
      s.Some? ==>
        && (forall i :: 0 <= i < |s.value.dow| ==>
              && s.value.dow[i].day == Weekdays(TotalRows(data), dayName)[i]
              && IsWeekdayMeans(s.value.dow[i], TotalRows(data), dayName))
        && FirstHighest(s.value.dow, s.value.best)
        && FirstLowest(s.value.dow, s.value.worst)
  {
    var s := SeasonalPatterns(data, dayName);
    if s.Some? {
      PickedExtremes(s.value.dow);
    }
  }

  // ---------------------------------------------------------------------------
  // _get_performance_grade

  datatype Grade = APlus | A | BPlus | B | C | D

  /** `_get_performance_grade`: thresholds 90, 80, 70, 60 and 50. */
  function PerformanceGrade(score: real): Grade
  {
    if score >= 90.0 then APlus
    else if score >= 80.0 then A
    else if score >= 70.0 then BPlus
    else if score >= 60.0 then B
    else if score >= 50.0 then C
    else D
  }

  /** The grade's place in the order D < C < B < B+ < A < A+. */
  function Rank(g: Grade): nat
  {
    match g
    case D => 0
    case C => 1
    case B => 2
    case BPlus => 3
    case A => 4
    case APlus => 5
  }

  /** The least score earning each grade. */
  function Threshold(g: Grade): real
  {
    match g
    case D => 0.0
    case C => 50.0
    case B => 60.0
    case BPlus => 70.0
    case A => 80.0
    case APlus => 90.0
  }

  /** A higher score never earns a lower grade. */
  lemma GradeMonotone(s1: real, s2: real)
    requires s1 <= s2
    ensures Rank(PerformanceGrade(s1)) <= Rank(PerformanceGrade(s2))
  {
  }

  /** A grade above D is earned exactly from its threshold up to the next grade's. */
  lemma GradeThresholds(score: real)
    ensures var g := PerformanceGrade(score);
      && (g != D ==> score >= Threshold(g))
      && (forall h :: Rank(h) > Rank(g) ==> score < Threshold(h))
  {
  }
}
