/** `aggregate_daily_marketing` (src/data_processor.py): one row per (date,
    channel) group with summed counts and the *mean* of the per-row ratios, then
    one synthetic `Total` row per date whose counts are summed over every channel
    and whose ratios are *recomputed* from those sums. Groups are listed in order
    of first appearance. */
module Aggregation {
  import opened Base
  import opened Seqs
  import opened Metrics

  const TotalLabel := "Total"

  /** A row of the daily marketing table. */
  datatype DailyRow = DailyRow(date: int, channel: string, counts: Counts, ratios: Ratios)

  function RatiosOf(m: MetricRow): Ratios
  {
    m.ratios
  }

  function Key(m: MetricRow): (int, string)
  {
    (m.date, m.channel)
  }

  function InGroup(k: (int, string)): MetricRow -> bool
  {
    (m: MetricRow) => Key(m) == k
  }

  function OnDate(d: int): MetricRow -> bool
  {
    (m: MetricRow) => m.date == d
  }

  /** Counts summed over a list of marketing rows. */
  function RowsTotal(s: seq<MetricRow>): Counts
  {
    if s == [] then NoCounts else Add(s[0].counts, RowsTotal(s[1..]))
  }

  /** Counts summed over a list of daily rows. */
  function DailyTotal(s: seq<DailyRow>): Counts
  {
    if s == [] then NoCounts else Add(s[0].counts, DailyTotal(s[1..]))
  }

  /** The distinct (date, channel) pairs, in order of first appearance. */
  function GroupKeys(rows: seq<MetricRow>): (keys: seq<(int, string)>)
    ensures NoDup(keys)
    ensures forall k :: k in keys <==> k in Map(rows, Key)
  {
    Distinct(Map(rows, Key))
  }

  /** The distinct dates, in order of first appearance. */
  function Dates(rows: seq<MetricRow>): (ds: seq<int>)
    ensures NoDup(ds)
    ensures forall d :: d in ds <==> d in Map(rows, (m: MetricRow) => m.date)
  {
    Distinct(Map(rows, (m: MetricRow) => m.date))
  }

  // ---------------------------------------------------------------------------
  // Per-channel part

  /** The aggregated row of one non-empty (date, channel) group. */
  function ChannelDay(rows: seq<MetricRow>, k: (int, string)): (r: DailyRow)
    requires k in Map(rows, Key)
    ensures r.date == k.0 && r.channel == k.1
  {
    var g := Filter(rows, InGroup(k));
    var j :| 0 <= j < |rows| && Map(rows, Key)[j] == k;
    assert rows[j] in g;
    DailyRow(k.0, k.1, RowsTotal(g), MeanRatios(Map(g, RatiosOf)))
  }

  function ChannelRows(rows: seq<MetricRow>, keys: seq<(int, string)>): (r: seq<DailyRow>)
    requires forall k :: k in keys ==> k in Map(rows, Key)
    ensures |r| == |keys|
    ensures forall i :: 0 <= i < |keys| ==> r[i] == ChannelDay(rows, keys[i])
    decreases |keys|
  {
    if keys == [] then [] else [ChannelDay(rows, keys[0])] + ChannelRows(rows, keys[1..])
  }

  /** `groupby(['date', 'channel']).agg({... 'sum' ..., ... 'mean' ...})`. */
  function ChannelDaily(rows: seq<MetricRow>): seq<DailyRow>
  {
    ChannelRows(rows, GroupKeys(rows))
  }

  // ---------------------------------------------------------------------------
  // Total part

  /** The `Total` row of one date: counts over every channel, ratios recomputed. */
  function TotalDay(rows: seq<MetricRow>, d: int): (r: DailyRow)
    ensures r.date == d && r.channel == TotalLabel
  {
    var c := RowsTotal(Filter(rows, OnDate(d)));
    DailyRow(d, TotalLabel, c, Derive(c))
  }

  /** `groupby('date').agg('sum')`, `create_derived_metrics` and `channel = 'Total'`. */
  function TotalDaily(rows: seq<MetricRow>): (r: seq<DailyRow>)
    ensures |r| == |Dates(rows)|
    ensures forall i :: 0 <= i < |r| ==> r[i] == TotalDay(rows, Dates(rows)[i])
  {
    var ds := Dates(rows);
    seq(|ds|, i requires 0 <= i < |ds| => TotalDay(rows, ds[i]))
  }

  /** `aggregate_daily_marketing`: the per-channel rows, then the `Total` rows. */
  function AggregateDailyMarketing(rows: seq<MetricRow>): (r: seq<DailyRow>)
    ensures r == ChannelDaily(rows) + TotalDaily(rows)
  {
    ChannelDaily(rows) + TotalDaily(rows)
  }

  // ---------------------------------------------------------------------------
  // Properties

  /** Per-channel part: exactly one row per distinct (date, channel) of the input. */
  lemma ChannelDailyKeys(rows: seq<MetricRow>)
    ensures Map(ChannelDaily(rows), (r: DailyRow) => (r.date, r.channel)) == GroupKeys(rows)
  {
    var out := ChannelDaily(rows);
    var keys := GroupKeys(rows);
    forall i | 0 <= i < |out| ensures (out[i].date, out[i].channel) == keys[i] {
    }
  }

  /** A per-channel row's counts are its group's sums and its ratios the group's
      means (the mean of per-row ratios, not a ratio of sums). */
  lemma ChannelDailyGroup(rows: seq<MetricRow>, i: nat)
    requires i < |ChannelDaily(rows)|
    ensures var r := ChannelDaily(rows)[i];
      var g := Filter(rows, InGroup((r.date, r.channel)));
      && |g| > 0
      && r.counts == RowsTotal(g)
      && r.ratios == MeanRatios(Map(g, RatiosOf))
  {
    var k := GroupKeys(rows)[i];
    var g := Filter(rows, InGroup(k));
    assert |g| > 0 by {
      assert k in Map(rows, Key);
      var j :| 0 <= j < |rows| && Map(rows, Key)[j] == k;
      assert rows[j] in g;
    }
    var r := ChannelDaily(rows)[i];
    assert r == DailyRow(k.0, k.1, RowsTotal(g), MeanRatios(Map(g, RatiosOf)));
    assert (r.date, r.channel) == k;
    assert Filter(rows, InGroup((r.date, r.channel))) == g;
  }

  /** Total part: exactly one `Total` row per distinct date of the input. */
  lemma TotalDailyDates(rows: seq<MetricRow>)
    ensures var out := TotalDaily(rows);
      && Map(out, (r: DailyRow) => r.date) == Dates(rows)
      && forall i :: 0 <= i < |out| ==> out[i].channel == TotalLabel
  {
    var out := TotalDaily(rows);
    var ds := Dates(rows);
    forall i | 0 <= i < |out| ensures out[i].date == ds[i] {
    }
  }

  /** A `Total` row's counts are the sums over every row of its date, and its
      ROAS is the ratio of those sums (0 when the summed spend is not positive). */
  lemma TotalDailyCounts(rows: seq<MetricRow>, i: nat)
    requires i < |TotalDaily(rows)|
    ensures var r := TotalDaily(rows)[i];
      && r.counts == RowsTotal(Filter(rows, OnDate(r.date)))
      && (r.counts.spend > 0.0 ==> r.ratios.roas * r.counts.spend == r.counts.revenue)
      && (r.counts.spend <= 0.0 ==> r.ratios.roas == 0.0)
  {
    var ds := Dates(rows);
    var c := RowsTotal(Filter(rows, OnDate(ds[i])));
    assert TotalDaily(rows)[i] == DailyRow(ds[i], TotalLabel, c, Derive(c));
  }

  // ---------------------------------------------------------------------------
  // The Total row of a date is the sum of that date's per-channel rows

  /** Sums of the groups among `keys` that fall on date `d`. */
  function KeySum(s: seq<MetricRow>, keys: seq<(int, string)>, d: int): Counts
    decreases |keys|
  {
    if keys == [] then NoCounts
    else if keys[0].0 == d then Add(RowsTotal(Filter(s, InGroup(keys[0]))), KeySum(s, keys[1..], d))
    else KeySum(s, keys[1..], d)
  }

  lemma {:induction false} ChannelRowsOnDate(rows: seq<MetricRow>, keys: seq<(int, string)>, d: int)
    requires forall k :: k in keys ==> k in Map(rows, Key)
    ensures DailyTotal(Filter(ChannelRows(rows, keys), (r: DailyRow) => r.date == d)) == KeySum(rows, keys, d)
    decreases |keys|
  {
    if keys != [] {
      var out := ChannelRows(rows, keys);
      assert out[1..] == ChannelRows(rows, keys[1..]);
      ChannelRowsOnDate(rows, keys[1..], d);
    }
  }

  /** Adding one row in front adds its counts to exactly the group holding it. */
  lemma {:induction false} KeySumCons(x: MetricRow, s: seq<MetricRow>, keys: seq<(int, string)>, d: int)
    requires NoDup(keys)
    ensures KeySum([x] + s, keys, d) ==
      Add(if x.date == d && Key(x) in keys then x.counts else NoCounts, KeySum(s, keys, d))
    decreases |keys|
  {
    if keys != [] {
      NoDupTail(keys);
      KeySumCons(x, s, keys[1..], d);
      var k := keys[0];
      var xs := [x] + s;
      if InGroup(k)(x) {
        assert Filter(xs, InGroup(k)) == [x] + Filter(s, InGroup(k)) by {
          assert xs[0] == x && xs[1..] == s;
        }
      } else {
        assert Filter(xs, InGroup(k)) == Filter(s, InGroup(k)) by {
          assert xs[0] == x && xs[1..] == s;
        }
      }
    }
  }

  /** Summing the groups of a date over a duplicate-free key list covering every
      row gives the sum of the rows of that date. */
  lemma {:induction false} KeySumCovers(s: seq<MetricRow>, keys: seq<(int, string)>, d: int)
    requires NoDup(keys)
    requires forall m :: m in s ==> Key(m) in keys
    ensures KeySum(s, keys, d) == RowsTotal(Filter(s, OnDate(d)))
    decreases |s|
  {
    if s == [] {
      KeySumEmpty(keys, d);
    } else {
      var x := s[0];
      assert s == [x] + s[1..];
      KeySumCovers(s[1..], keys, d);
      KeySumCons(x, s[1..], keys, d);
    }
  }

  lemma {:induction false} KeySumEmpty(keys: seq<(int, string)>, d: int)
    ensures KeySum([], keys, d) == NoCounts
    decreases |keys|
  {
    if keys != [] {
      KeySumEmpty(keys[1..], d);
    }
  }

  /** For every date, the `Total` row's counts equal the sums of that date's
      per-channel rows: the two parts of the daily table agree. */
  lemma TotalIsSumOfChannels(rows: seq<MetricRow>, d: int)
    ensures TotalDay(rows, d).counts ==
      DailyTotal(Filter(ChannelDaily(rows), (r: DailyRow) => r.date == d))
  {
    var keys := GroupKeys(rows);
    ChannelRowsOnDate(rows, keys, d);
    KeySumCovers(rows, keys, d);
  }
}
