/** Marketing rows after the cleaning stage, as typed records: the four counts a
    feed reports and the four ratios derived from them (src/data_processor.py,
    `create_derived_metrics`). */
module Metrics {
  import opened Base
  import opened Seqs

  datatype Counts = Counts(impressions: real, clicks: real, spend: real, revenue: real)

  datatype Ratios = Ratios(ctr: real, cpc: real, roas: real, cpm: real)

  /** One cleaned marketing row: its day, the channel label and its counts. */
  datatype AdRow = AdRow(date: int, channel: string, counts: Counts)

  /** A marketing row with its derived ratios. */
  datatype MetricRow = MetricRow(date: int, channel: string, counts: Counts, ratios: Ratios)

  const NoCounts := Counts(0.0, 0.0, 0.0, 0.0)

  /** `q` is `num / den` where `den > 0`, and 0 otherwise. */
  predicate Guarded(q: real, num: real, den: real)
  {
    if den > 0.0 then q * den == num else q == 0.0
  }

  /** `np.where(den > 0, num / den, 0)`. */
  function Ratio(num: real, den: real): (r: real)
    ensures den > 0.0 ==> r * den == num
    ensures den <= 0.0 ==> r == 0.0
    ensures Guarded(r, num, den)
  {
    if den > 0.0 then num / den else 0.0
  }

  /** The four ratios of `create_derived_metrics`, each 0 when its denominator is
      not positive; CTR is not clamped to 1 and CPM is per thousand impressions. */
  function Derive(c: Counts): (r: Ratios)
    ensures c.impressions > 0.0 ==> r.ctr * c.impressions == c.clicks
    ensures c.impressions > 0.0 ==> r.cpm * c.impressions == 1000.0 * c.spend
    ensures c.impressions <= 0.0 ==> r.ctr == 0.0 && r.cpm == 0.0
    ensures c.clicks > 0.0 ==> r.cpc * c.clicks == c.spend
    ensures c.clicks <= 0.0 ==> r.cpc == 0.0
    ensures c.spend > 0.0 ==> r.roas * c.spend == c.revenue
    ensures c.spend <= 0.0 ==> r.roas == 0.0
  {
    Ratios(Ratio(c.clicks, c.impressions), Ratio(c.spend, c.clicks),
           Ratio(c.revenue, c.spend), Ratio(c.spend, c.impressions) * 1000.0)
  }

  /** More clicks than impressions gives a click-through rate above 1. */
  lemma CtrNotClamped()
    ensures Derive(Counts(1.0, 2.0, 0.0, 0.0)).ctr == 2.0
  {
  }

  /** `create_derived_metrics`: one output row per input row, in order, with the
      date, channel and counts untouched and the ratios derived from the counts. */
  function CreateDerivedMetrics(rows: seq<AdRow>): (r: seq<MetricRow>)
    ensures |r| == |rows|
    ensures forall i :: 0 <= i < |rows| ==>
      && r[i].date == rows[i].date && r[i].channel == rows[i].channel
      && r[i].counts == rows[i].counts && r[i].ratios == Derive(rows[i].counts)
  {
    Map(rows, (a: AdRow) => MetricRow(a.date, a.channel, a.counts, Derive(a.counts)))
  }

  // ---------------------------------------------------------------------------
  // Sums and means of counts and ratios

  // Column projections, named so that every mention denotes the same function.
  function Impressions(c: Counts): real { c.impressions }
  function Clicks(c: Counts): real { c.clicks }
  function Spend(c: Counts): real { c.spend }
  function Revenue(c: Counts): real { c.revenue }
  function Ctr(r: Ratios): real { r.ctr }
  function Cpc(r: Ratios): real { r.cpc }
  function Roas(r: Ratios): real { r.roas }
  function Cpm(r: Ratios): real { r.cpm }

  function Add(a: Counts, b: Counts): Counts
  {
    Counts(a.impressions + b.impressions, a.clicks + b.clicks, a.spend + b.spend, a.revenue + b.revenue)
  }

  /** Column-wise sums, as `groupby(...).agg('sum')` computes them. */
  function SumCounts(cs: seq<Counts>): (r: Counts)
  {
    if cs == [] then NoCounts else Add(cs[0], SumCounts(cs[1..]))
  }

  /** Summing rows that carry no counts gives no counts. */
  lemma {:induction false} SumCountsNone(cs: seq<Counts>)
    requires forall c :: c in cs ==> c == NoCounts
    ensures SumCounts(cs) == NoCounts
  {
    if cs != [] {
      forall c | c in cs[1..] ensures c == NoCounts {
        assert c in cs;
      }
      SumCountsNone(cs[1..]);
      assert cs[0] in cs;
    }
  }

  lemma {:induction false} SumCountsAppend(a: seq<Counts>, b: seq<Counts>)
    ensures SumCounts(a + b) == Add(SumCounts(a), SumCounts(b))
  {
    if a != [] {
      assert (a + b)[0] == a[0] && (a + b)[1..] == a[1..] + b;
      SumCountsAppend(a[1..], b);
    } else {
      assert a + b == b;
    }
  }

  /** Each field of the column-wise sum is the sum of that field. */
  lemma {:induction false} SumCountsFields(cs: seq<Counts>)
    ensures SumCounts(cs).spend == Sum(Map(cs, Spend))
    ensures SumCounts(cs).revenue == Sum(Map(cs, Revenue))
    ensures SumCounts(cs).impressions == Sum(Map(cs, Impressions))
    ensures SumCounts(cs).clicks == Sum(Map(cs, Clicks))
  {
    if cs != [] {
      SumCountsFields(cs[1..]);
      assert Map(cs, Spend)[1..] == Map(cs[1..], Spend);
      assert Map(cs, Revenue)[1..] == Map(cs[1..], Revenue);
      assert Map(cs, Impressions)[1..] == Map(cs[1..], Impressions);
      assert Map(cs, Clicks)[1..] == Map(cs[1..], Clicks);
    }
  }

  /** Column-wise means of a non-empty group, as `agg('mean')` computes them. */
  function MeanRatios(rs: seq<Ratios>): (r: Ratios)
    requires |rs| > 0
    ensures r.ctr * |rs| as real == Sum(Map(rs, Ctr))
    ensures r.cpc * |rs| as real == Sum(Map(rs, Cpc))
    ensures r.roas * |rs| as real == Sum(Map(rs, Roas))
    ensures r.cpm * |rs| as real == Sum(Map(rs, Cpm))
  {
    Ratios(Mean(Map(rs, Ctr)), Mean(Map(rs, Cpc)),
           Mean(Map(rs, Roas)), Mean(Map(rs, Cpm)))
  }
}
