/** The business-intelligence half of `MarketingAnalytics` (src/analytics.py):
    the five-rule insight engine, the efficiency scores, the budget-reallocation
    arithmetic and the executive summary. Insights are kept as their type,
    priority and numbers; their display texts are not modelled. */
module Insights {
  import opened Base
  import opened Seqs
  import opened Sorting
  import opened Metrics
  import Aggregation
  import opened Merging
  import opened Analytics

  // ---------------------------------------------------------------------------
  // Median, as pandas' `Series.median`

  predicate RealLe(a: real, b: real)
  {
    a <= b
  }

  lemma RealLeTotalPreorder()
    ensures TotalPreorder(RealLe)
  {
  }

  /** The middle value of the sorted values, or the mean of the two middle ones;
      it lies between two of the values. */
  function Median(xs: seq<real>): (m: real)
    requires |xs| > 0
    ensures exists i :: 0 <= i < |xs| && xs[i] <= m
    ensures exists j :: 0 <= j < |xs| && m <= xs[j]
    ensures |xs| == 1 ==> m == xs[0]
  {
    RealLeTotalPreorder();
    SortSpec(xs, RealLe);
    var s := Sort(xs, RealLe);
    var h := |s| / 2;
    assert s[h] in multiset(xs);
    var m := if |s| % 2 == 1 then s[h] else (s[h - 1] + s[h]) / 2.0;
    assert |s| % 2 == 0 ==> s[h - 1] in multiset(xs) && RealLe(s[h - 1], s[h]);
    assert |xs| == 1 ==> s == xs by {
      if |xs| == 1 {
        assert multiset(s) == multiset{xs[0]};
        assert s[0] in multiset{xs[0]};
      }
    }
    m
  }

  // ---------------------------------------------------------------------------
  // get_performance_insights

  datatype Priority = High | Medium

  /** Why `get_performance_insights` raises: joining a channel name that is not a
      string. */
  datatype InsightError = NonTextChannelName

  /** One insight. `TopPerformer` carries the projected revenue increase,
      `OptimizationOpportunity` the low-ROAS channels and the savings. */
  datatype Insight =
    | TopPerformer(channel: ChannelCell, roas: real, spend: real, revenueIncrease: real)
    | OptimizationOpportunity(channels: seq<ChannelCell>, savings: real)
    | ConversionOptimization(channel: ChannelCell, ctr: real)
    | AttributionGap(rate: real)
    | PortfolioRisk(channel: ChannelCell)

  /** The rule's place in the fixed order of the engine. */
  function Kind(i: Insight): nat
  {
    match i
    case TopPerformer(_, _, _, _) => 0
    case OptimizationOpportunity(_, _) => 1
    case ConversionOptimization(_, _) => 2
    case AttributionGap(_) => 3
    case PortfolioRisk(_) => 4
  }

  function PriorityOf(i: Insight): Priority
  {
    if i.TopPerformer? || i.OptimizationOpportunity? then High else Medium
  }

  function SummarySpend(s: ChannelSummary): real { s.counts.spend }
  function SummaryCtr(s: ChannelSummary): real { s.ratios.ctr }
  function SummaryRoas(s: ChannelSummary): real { s.ratios.roas }

  predicate LowRoas(s: ChannelSummary)
  {
    s.ratios.roas < 2.0
  }

  /** Good engagement but weak return: CTR above and ROAS below the medians. */
  function Engaging(ctrMedian: real, roasMedian: real): ChannelSummary -> bool
  {
    (s: ChannelSummary) => s.ratios.ctr > ctrMedian && s.ratios.roas < roasMedian
  }

  /** The channels a conversion insight may name (none when there are no channels). */
  function EngagingChannels(perf: seq<ChannelSummary>): seq<ChannelSummary>
  {
    if |perf| == 0 then []
    else Filter(perf, Engaging(Median(Map(perf, SummaryCtr)), Median(Map(perf, SummaryRoas))))
  }

  /** `top / total > 0.6` in IEEE arithmetic: dividing a positive spend by a zero
      total gives infinity, which exceeds 0.6, and zero by zero gives NaN, which
      does not. */
  predicate Concentrated(top: real, total: real)
  {
    if total != 0.0 then top / total > 0.6 else top > 0.0
  }

  function TopRule(perf: seq<ChannelSummary>): (r: seq<Insight>)
    ensures |r| <= 1 && forall x :: x in r ==> Kind(x) == 0
  {
    if |perf| == 0 then []
    else
      var t := perf[0];
      [TopPerformer(t.channel, t.ratios.roas, t.counts.spend, t.counts.spend * 0.2 * t.ratios.roas)]
  }

  /** `low_roas_channels['channel'].tolist()`. */
  function LowRoasChannels(perf: seq<ChannelSummary>): seq<ChannelCell>
  {
    Map(Filter(perf, LowRoas), SummaryChannel)
  }

  /** The Optimization Opportunity the check appends once the channel names are
      joined: all low-ROAS channels and 15% of their spend. */
  function OptimizationList(perf: seq<ChannelSummary>): (r: seq<Insight>)
    ensures |r| <= 1 && forall x :: x in r ==> Kind(x) == 1
  {
    var low := Filter(perf, LowRoas);
    if |low| == 0 then []
    else [OptimizationOpportunity(Map(low, SummaryChannel), Sum(Map(low, SummarySpend)) * 0.15)]
  }

  /** The Optimization Opportunity check. `', '.join` accepts only strings, so it
      raises `TypeError` when the zero-filled channel (the integer `0` a
      ledger-only date gets in the merge) is among the low-ROAS channels; that
      channel has no spend, hence ROAS 0, whenever it exists. */
  function OptimizationRule(perf: seq<ChannelSummary>): (r: Result<seq<Insight>, InsightError>)
    ensures r.Failure? <==> ZeroFill in LowRoasChannels(perf)
    ensures r.Success? ==> |r.value| <= 1
    ensures r.Success? ==> forall x :: x in r.value ==>
      x.OptimizationOpportunity? && ZeroFill !in x.channels && x.channels == LowRoasChannels(perf)
  {
    if ZeroFill in LowRoasChannels(perf) then Failure(NonTextChannelName)
    else Success(OptimizationList(perf))
  }

  function ConversionRule(perf: seq<ChannelSummary>): (r: seq<Insight>)
    ensures |r| <= 1 && forall x :: x in r ==> Kind(x) == 2
  {
    var c := EngagingChannels(perf);
    if |c| == 0 then [] else [ConversionOptimization(c[0].channel, c[0].ratios.ctr)]
  }

  function AttributionRule(impact: Impact): (r: seq<Insight>)
    ensures |r| <= 1 && forall x :: x in r ==> Kind(x) == 3
  {
    if impact.attributionRate < 15.0 then [AttributionGap(impact.attributionRate)] else []
  }

  function RiskRule(perf: seq<ChannelSummary>): (r: seq<Insight>)
    ensures |r| <= 1 && forall x :: x in r ==> Kind(x) == 4
  {
    if |perf| > 0 && Concentrated(perf[0].counts.spend, Sum(Map(perf, SummarySpend)))
    then [PortfolioRisk(perf[0].channel)]
    else []
  }

  /** The insights for a channel table and a business impact: the rules in their
      fixed order, cut to five, or the error of the Optimization check. */
  function InsightsOf(perf: seq<ChannelSummary>, impact: Impact): Result<seq<Insight>, InsightError>
  {
    match OptimizationRule(perf)
    case Failure(e) => Failure(e)
    case Success(opt) =>
      var all := TopRule(perf) + opt + ConversionRule(perf) + AttributionRule(impact) + RiskRule(perf);
      Success(all[..if |all| <= 5 then |all| else 5])
  }

  function Insights(data: seq<FinalRow>): Result<seq<Insight>, InsightError>
  {
    InsightsOf(ChannelPerformance(data), BusinessImpact(data))
  }

  /** `get_performance_insights`: one rule after another, each appending at most
      one insight. */
  method GetPerformanceInsights(data: seq<FinalRow>) returns (r: Result<seq<Insight>, InsightError>)
    ensures r == Insights(data)
  {
    r := CollectInsights(ChannelPerformance(data), BusinessImpact(data));
  }

  /** The body of `get_performance_insights` once the channel table and the
      business impact are computed: the five checks in order, then the cut to
      five; the Optimization check may raise. */
  method CollectInsights(perf: seq<ChannelSummary>, impact: Impact) returns (r: Result<seq<Insight>, InsightError>)
    ensures r == InsightsOf(perf, impact)
  {
    var insights := [];
    insights := AddTopPerformer(insights, perf);
    assert insights == TopRule(perf);
    var opt := AddOptimization(insights, perf);
    if opt.Failure? {
      return Failure(NonTextChannelName);
    }
    insights := opt.value;
    assert insights == TopRule(perf) + OptimizationRule(perf).value;
    insights := AddConversion(insights, perf);
    insights := AddAttributionGap(insights, impact);
    insights := AddPortfolioRisk(insights, perf);
    assert insights == TopRule(perf) + OptimizationRule(perf).value + ConversionRule(perf)
                       + AttributionRule(impact) + RiskRule(perf);
    r := Success(insights[..if |insights| <= 5 then |insights| else 5]);
  }

  /** The Top Performer check: the first row of the channel table, if any. */
  method AddTopPerformer(insights: seq<Insight>, perf: seq<ChannelSummary>) returns (r: seq<Insight>)
    ensures r == insights + TopRule(perf)
  {
    r := insights;
    if |perf| > 0 {
      var t := perf[0];
      var top := TopPerformer(t.channel, t.ratios.roas, t.counts.spend, t.counts.spend * 0.2 * t.ratios.roas);
      assert TopRule(perf)[0] == top;
      r := r + [top];
    }
  }

  /** The Optimization Opportunity check: every channel with ROAS below 2, their
      names joined, which fails on the zero-filled channel. */
  method AddOptimization(insights: seq<Insight>, perf: seq<ChannelSummary>)
    returns (r: Result<seq<Insight>, InsightError>)
    ensures r.Failure? <==> ZeroFill in LowRoasChannels(perf)
    ensures r.Success? ==> r.value == insights + OptimizationRule(perf).value
  {
    var low := Filter(perf, LowRoas);
    if |low| > 0 {
      var names := Map(low, SummaryChannel);
      if ZeroFill in names {
        return Failure(NonTextChannelName);
      }
      return Success(insights + [OptimizationOpportunity(names, Sum(Map(low, SummarySpend)) * 0.15)]);
    }
    return Success(insights);
  }

  /** The Conversion Optimization check: the first channel above the CTR median
      and below the ROAS median. */
  method AddConversion(insights: seq<Insight>, perf: seq<ChannelSummary>) returns (r: seq<Insight>)
    ensures r == insights + ConversionRule(perf)
  {
    r := insights;
    var engaging := EngagingChannels(perf);
    if |engaging| > 0 {
      r := r + [ConversionOptimization(engaging[0].channel, engaging[0].ratios.ctr)];
    }
  }

  /** The Attribution Gap check: an attribution rate below 15%. */
  method AddAttributionGap(insights: seq<Insight>, impact: Impact) returns (r: seq<Insight>)
    ensures r == insights + AttributionRule(impact)
  {
    r := insights;
    if impact.attributionRate < 15.0 {
      r := r + [AttributionGap(impact.attributionRate)];
    }
  }

  /** The Portfolio Risk check: the first row's share of total spend above 60%. */
  method AddPortfolioRisk(insights: seq<Insight>, perf: seq<ChannelSummary>) returns (r: seq<Insight>)
    ensures r == insights + RiskRule(perf)
  {
    r := insights;
    if |perf| > 0 {
      var share := Concentrated(perf[0].counts.spend, Sum(Map(perf, SummarySpend)));
      if share {
        r := r + [PortfolioRisk(perf[0].channel)];
      }
    }
  }

  /** Some insight of `r` is of kind `k`. */
  predicate HasKind(r: seq<Insight>, k: nat)
  {
    exists i :: 0 <= i < |r| && Kind(r[i]) == k
  }

  /** The five rule outputs in order, the Optimization check's as it is once the
      channel names are joined. */
  function Rules(perf: seq<ChannelSummary>, impact: Impact): seq<Insight>
  {
    TopRule(perf) + OptimizationList(perf) + ConversionRule(perf) + AttributionRule(impact) + RiskRule(perf)
  }

  /** The engine fails exactly when the zero-filled channel has ROAS below 2;
      otherwise every rule fires at most once, so nothing is ever cut and the
      result is the concatenation of the rules. */
  lemma InsightsAll(perf: seq<ChannelSummary>, impact: Impact)
    ensures InsightsOf(perf, impact).Failure? <==> ZeroFill in LowRoasChannels(perf)
    ensures InsightsOf(perf, impact).Success? ==>
      InsightsOf(perf, impact).value == TopRule(perf) + OptimizationList(perf) + ConversionRule(perf)
                                        + AttributionRule(impact) + RiskRule(perf)
  {
  }

  /** At most five insights, at most one of each type, in the fixed order Top
      Performer, Optimization Opportunity, Conversion Optimization, Attribution
      Gap, Portfolio Risk. */
  lemma InsightsOrder(perf: seq<ChannelSummary>, impact: Impact)
    ensures var r := InsightsOf(perf, impact);
      r.Success? ==>
        && |r.value| <= 5
        && forall i, j :: 0 <= i < j < |r.value| ==> Kind(r.value[i]) < Kind(r.value[j])
  {
    InsightsAll(perf, impact);
    KindsInOrder(TopRule(perf), OptimizationList(perf), ConversionRule(perf), AttributionRule(impact), RiskRule(perf));
  }

  /** Five rule outputs of at most one insight each, of kinds 0 to 4,
      concatenated, are in strictly increasing kind order. */
  lemma KindsInOrder(a: seq<Insight>, b: seq<Insight>, c: seq<Insight>, d: seq<Insight>, e: seq<Insight>)
    requires |a| <= 1 && |b| <= 1 && |c| <= 1 && |d| <= 1 && |e| <= 1
    requires forall x :: x in a ==> Kind(x) == 0
    requires forall x :: x in b ==> Kind(x) == 1
    requires forall x :: x in c ==> Kind(x) == 2
    requires forall x :: x in d ==> Kind(x) == 3
    requires forall x :: x in e ==> Kind(x) == 4
    ensures var r := a + b + c + d + e;
      forall i, j :: 0 <= i < j < |r| ==> Kind(r[i]) < Kind(r[j])
  {
    var r := a + b + c + d + e;
    forall k | 0 <= k < |r|
      ensures Kind(r[k]) == (if k < |a| then 0 else if k < |a + b| then 1 else if k < |a + b + c| then 2
                             else if k < |a + b + c + d| then 3 else 4)
    {
      if k < |a| { assert r[k] == a[k]; }
      else if k < |a + b| { assert r[k] == b[k - |a|]; }
      else if k < |a + b + c| { assert r[k] == c[k - |a + b|]; }
      else if k < |a + b + c + d| { assert r[k] == d[k - |a + b + c|]; }
      else { assert r[k] == e[k - |a + b + c + d|]; }
    }
    forall i, j | 0 <= i < j < |r| ensures Kind(r[i]) < Kind(r[j]) {
    }
  }

  /** When the engine completes, a Top Performer insight comes first exactly
      when some channel exists; it names the first (highest-spend) channel and
      projects spend·0.2·ROAS. */
  lemma InsightsTop(perf: seq<ChannelSummary>, impact: Impact)
    ensures var r := InsightsOf(perf, impact);
      r.Success? ==>
        && (HasKind(r.value, 0) <==> |perf| > 0)
        && (|perf| > 0 ==> r.value[0] == TopPerformer(perf[0].channel, perf[0].ratios.roas, perf[0].counts.spend,
                                                     perf[0].counts.spend * 0.2 * perf[0].ratios.roas))
  {
    var r := InsightsOf(perf, impact);
    if r.Success? {
      KindFromRule(perf, impact, 0);
      InsightsAll(perf, impact);
      if |perf| > 0 {
        assert TopRule(perf) == [r.value[0]];
      }
    }
  }

  /** In a concatenation of rule outputs, a kind is present exactly when the
      rule producing it fired. */
  lemma HasKindAppend(a: seq<Insight>, b: seq<Insight>, k: nat)
    ensures HasKind(a + b, k) <==> HasKind(a, k) || HasKind(b, k)
  {
    if HasKind(a + b, k) {
      var i :| 0 <= i < |a + b| && Kind((a + b)[i]) == k;
      if i >= |a| {
        assert b[i - |a|] == (a + b)[i];
      }
    }
    if HasKind(a, k) {
      var i :| 0 <= i < |a| && Kind(a[i]) == k;
      assert (a + b)[i] == a[i];
    }
    if HasKind(b, k) {
      var i :| 0 <= i < |b| && Kind(b[i]) == k;
      assert (a + b)[|a| + i] == b[i];
    }
  }

  /** The rule that produces insights of kind `k`. */
  function RuleFor(perf: seq<ChannelSummary>, impact: Impact, k: nat): seq<Insight>
    requires k <= 4
  {
    match k
    case 0 => TopRule(perf)
    case 1 => OptimizationList(perf)
    case 2 => ConversionRule(perf)
    case 3 => AttributionRule(impact)
    case 4 => RiskRule(perf)
  }

  /** A rule's output holds kind `k` exactly when it is `k`'s rule and it fired. */
  lemma HasKindRule(rule: seq<Insight>, k: nat, m: nat)
    requires forall x :: x in rule ==> Kind(x) == m
    ensures HasKind(rule, k) <==> k == m && rule != []
  {
    if rule != [] {
      assert rule[0] in rule;
    }
  }

  /** In the concatenated rules a kind is present exactly when its rule fired. */
  lemma KindFromRules(perf: seq<ChannelSummary>, impact: Impact, k: nat)
    requires k <= 4
    ensures HasKind(Rules(perf, impact), k) <==> RuleFor(perf, impact, k) != []
  {
    var a := TopRule(perf);
    var b := OptimizationList(perf);
    var c := ConversionRule(perf);
    var d := AttributionRule(impact);
    var e := RiskRule(perf);
    HasKindAppend(a, b, k);
    HasKindAppend(a + b, c, k);
    HasKindAppend(a + b + c, d, k);
    HasKindAppend(a + b + c + d, e, k);
    HasKindRule(a, k, 0);
    HasKindRule(b, k, 1);
    HasKindRule(c, k, 2);
    HasKindRule(d, k, 3);
    HasKindRule(e, k, 4);
  }

  /** When the engine completes, a kind is present exactly when its rule fired. */
  lemma KindFromRule(perf: seq<ChannelSummary>, impact: Impact, k: nat)
    requires k <= 4
    ensures var r := InsightsOf(perf, impact);
      r.Success? ==> (HasKind(r.value, k) <==> RuleFor(perf, impact, k) != [])
  {
    InsightsAll(perf, impact);
    KindFromRules(perf, impact, k);
  }

  /** The engine raises exactly when the zero-filled channel has ROAS below 2;
      otherwise Optimization Opportunity fires exactly when some channel has
      ROAS below 2. */
  lemma OptimizationFires(perf: seq<ChannelSummary>, impact: Impact)
    ensures InsightsOf(perf, impact).Failure? <==>
      exists s :: s in perf && s.ratios.roas < 2.0 && s.channel == ZeroFill
    ensures var r := InsightsOf(perf, impact);
      r.Success? ==> (HasKind(r.value, 1) <==> exists s :: s in perf && s.ratios.roas < 2.0)
  {
    InsightsAll(perf, impact);
    KindFromRule(perf, impact, 1);
    var low := Filter(perf, LowRoas);
    if s :| s in perf && s.ratios.roas < 2.0 {
      assert s in low;
    }
    if low != [] {
      assert low[0] in low;
    }
    if s :| s in perf && s.ratios.roas < 2.0 && s.channel == ZeroFill {
      var k :| 0 <= k < |low| && low[k] == s;
      assert LowRoasChannels(perf)[k] == ZeroFill;
    }
    if ZeroFill in LowRoasChannels(perf) {
      var k :| 0 <= k < |low| && LowRoasChannels(perf)[k] == ZeroFill;
      assert low[k] in low;
    }
  }

  /** When the engine completes, Conversion Optimization fires exactly when some
      channel has CTR above and ROAS below the channels' medians. */
  lemma ConversionFires(perf: seq<ChannelSummary>, impact: Impact)
    ensures var r := InsightsOf(perf, impact);
      r.Success? ==>
        (HasKind(r.value, 2) <==>
          (|perf| > 0 && exists s :: s in perf && s.ratios.ctr > Median(Map(perf, SummaryCtr))
                                               && s.ratios.roas < Median(Map(perf, SummaryRoas))))
  {
    KindFromRule(perf, impact, 2);
    if |perf| > 0 {
      var eng := Engaging(Median(Map(perf, SummaryCtr)), Median(Map(perf, SummaryRoas)));
      var c := Filter(perf, eng);
      assert EngagingChannels(perf) == c;
      if s :| s in perf && eng(s) {
        assert s in c;
      }
      if c != [] {
        assert c[0] in c;
      }
    }
  }

  /** When the engine completes, Attribution Gap fires exactly when the
      attribution rate is below 15%, and Portfolio Risk exactly when the
      highest-spend channel's share exceeds 0.6. */
  lemma GapAndRiskFire(perf: seq<ChannelSummary>, impact: Impact)
    ensures var r := InsightsOf(perf, impact);
      r.Success? ==> (HasKind(r.value, 3) <==> impact.attributionRate < 15.0)
    ensures var r := InsightsOf(perf, impact);
      r.Success? ==>
        (HasKind(r.value, 4) <==>
          (|perf| > 0 && Concentrated(perf[0].counts.spend, Sum(Map(perf, SummarySpend)))))
  {
    KindFromRule(perf, impact, 3);
    KindFromRule(perf, impact, 4);
  }

  /** The savings are 15% of the low-ROAS channels' spend; those channels are
      listed in channel-table order, and the zero-filled channel is never among
      them. */
  lemma OptimizationSavings(perf: seq<ChannelSummary>, impact: Impact, x: Insight)
    requires InsightsOf(perf, impact).Success?
    requires x in InsightsOf(perf, impact).value && x.OptimizationOpportunity?
    ensures var low := Filter(perf, LowRoas);
      && x.channels == Map(low, SummaryChannel)
      && x.savings == 0.15 * Sum(Map(low, SummarySpend))
      && ZeroFill !in x.channels
      && forall ch :: ch in x.channels ==> exists s :: s in perf && s.channel == ch && s.ratios.roas < 2.0
  {
    InsightsAll(perf, impact);
    var low := Filter(perf, LowRoas);
    var a := TopRule(perf);
    var c := ConversionRule(perf);
    var d := AttributionRule(impact);
    var e := RiskRule(perf);
    assert x in a + OptimizationList(perf) + c + d + e;
    assert x !in a && x !in c && x !in d && x !in e;
    assert x in OptimizationList(perf);
    forall ch | ch in x.channels ensures exists s :: s in perf && s.channel == ch && s.ratios.roas < 2.0 {
      var k :| 0 <= k < |low| && Map(low, SummaryChannel)[k] == ch;
      assert low[k] in low;
    }
  }

  /** A conversion insight needs at least two channels: a single channel sits
      exactly on both medians. */
  lemma ConversionNeedsTwoChannels(perf: seq<ChannelSummary>, impact: Impact)
    requires InsightsOf(perf, impact).Success? && HasKind(InsightsOf(perf, impact).value, 2)
    ensures |perf| >= 2
  {
    ConversionFires(perf, impact);
  }

  /** When the zero-filled channel, if listed, has ROAS below 2, the engine
      raises exactly when that channel is listed. */
  lemma RaisesOnZeroFill(perf: seq<ChannelSummary>, impact: Impact)
    requires forall s :: s in perf && s.channel == ZeroFill ==> s.ratios.roas < 2.0
    ensures InsightsOf(perf, impact).Failure? <==> ZeroFill in Map(perf, SummaryChannel)
  {
    OptimizationFires(perf, impact);
    if ZeroFill in Map(perf, SummaryChannel) {
      var k :| 0 <= k < |perf| && Map(perf, SummaryChannel)[k] == ZeroFill;
      assert perf[k] in perf;
    }
    if s :| s in perf && s.channel == ZeroFill {
      var k :| 0 <= k < |perf| && perf[k] == s;
      assert Map(perf, SummaryChannel)[k] == ZeroFill;
    }
  }

  /** On any final table whose zero-filled channel, when present, has ROAS
      below 2, the engine raises exactly when some row carries that channel. */
  lemma ZeroFillRaises(data: seq<FinalRow>)
    requires forall s :: s in ChannelPerformance(data) && s.channel == ZeroFill ==> s.ratios.roas < 2.0
    ensures Insights(data).Failure? <==> exists r :: r in data && r.channel == ZeroFill
  {
    RaisesOnZeroFill(ChannelPerformance(data), BusinessImpact(data));
    ChannelPerformanceChannels(data);
    assert ZeroFill != TotalChannel;
  }

  /** On a merged table the engine raises exactly when some date has ledger
      figures but no marketing rows: such a date gets the zero-filled channel
      with no spend, hence ROAS 0. */
  lemma MergedInsightsFail(daily: seq<Aggregation.DailyRow>, biz: seq<BizRow>)
    ensures var data := MergeMarketingBusiness(daily, biz);
      Insights(data).Failure? <==> exists r :: r in data && r.channel == ZeroFill
  {
    var data := MergeMarketingBusiness(daily, biz);
    forall s | s in ChannelPerformance(data) && s.channel == ZeroFill ensures s.ratios.roas < 2.0 {
      ChannelPerformanceSums(data, s);
      ZeroFillNoCounts(daily, biz);
    }
    ZeroFillRaises(data);
  }

  /** In a merged table the zero-filled channel sums to no counts. */
  lemma ZeroFillNoCounts(daily: seq<Aggregation.DailyRow>, biz: seq<BizRow>)
    ensures ChannelSum(MergeMarketingBusiness(daily, biz), ZeroFill) == NoCounts
  {
    var data := MergeMarketingBusiness(daily, biz);
    var rows := Filter(ChannelRows(data), OnChannel(ZeroFill));
    var cs := Map(rows, CountsOf);
    forall c | c in cs ensures c == NoCounts {
      var k :| 0 <= k < |rows| && cs[k] == c;
      assert rows[k] in rows;
      assert rows[k] in ChannelRows(data);
      MergeOrigin(daily, biz, rows[k]);
    }
    SumCountsNone(cs);
  }

  // ---------------------------------------------------------------------------
  // calculate_efficiency_benchmarks

  const RoasBenchmark := 3.0
  const CtrBenchmark := 0.02
  const CpcBenchmark := 2.0

  datatype Efficiency = Efficiency(score: real, roasVsBenchmark: real, ctrVsBenchmark: real,
                                   cpcVsBenchmark: real, grade: Grade)

  function Min100(x: real): (r: real)
    ensures r <= 100.0 && (r == x || r == 100.0) && (x >= 0.0 ==> r >= 0.0)
  {
    if x < 100.0 then x else 100.0
  }

  function Max(a: real, b: real): (r: real)
    ensures r >= a && r >= b && (r == a || r == b)
  {
    if a >= b then a else b
  }

  /** A channel's composite score: half ROAS, 30% CTR and 20% CPC, each relative
      to its benchmark and capped at 100, with CPC floored at 0.1. */
  function EfficiencyOf(s: ChannelSummary): (e: Efficiency)
    ensures e.score <= 100.0
    ensures s.ratios.roas >= 0.0 && s.ratios.ctr >= 0.0 ==> e.score >= 0.0
    ensures Guarded(e.roasVsBenchmark, s.ratios.roas, RoasBenchmark)
    ensures Guarded(e.ctrVsBenchmark, s.ratios.ctr, CtrBenchmark)
    ensures Guarded(e.cpcVsBenchmark, CpcBenchmark, Max(s.ratios.cpc, 0.1))
    ensures e.grade == PerformanceGrade(e.score)
  {
    var roasScore := Min100(s.ratios.roas / RoasBenchmark * 100.0);
    var ctrScore := Min100(s.ratios.ctr / CtrBenchmark * 100.0);
    var cpcScore := Min100(CpcBenchmark / Max(s.ratios.cpc, 0.1) * 100.0);
    var score := roasScore * 0.5 + ctrScore * 0.3 + cpcScore * 0.2;
    Efficiency(score, s.ratios.roas / RoasBenchmark, s.ratios.ctr / CtrBenchmark,
               CpcBenchmark / Max(s.ratios.cpc, 0.1), PerformanceGrade(score))
  }

  /** `calculate_efficiency_benchmarks`: one entry per channel of the table. */
  method EfficiencyBenchmarks(data: seq<FinalRow>) returns (results: map<ChannelCell, Efficiency>)
    ensures results.Keys == set s | s in ChannelPerformance(data) :: s.channel
    ensures forall s :: s in ChannelPerformance(data) ==> results[s.channel] == EfficiencyOf(s)
  {
    ChannelPerformanceChannels(data);
    results := ScoreChannels(ChannelPerformance(data));
  }

  /** The scoring loop over a table with one row per channel. */
  method ScoreChannels(perf: seq<ChannelSummary>) returns (results: map<ChannelCell, Efficiency>)
    requires NoDup(Map(perf, SummaryChannel))
    ensures results.Keys == set s | s in perf :: s.channel
    ensures forall s :: s in perf ==> results[s.channel] == EfficiencyOf(s)
  {
    results := map[];
    for i := 0 to |perf|
      invariant results.Keys == set s | s in perf[..i] :: s.channel
      invariant forall j :: 0 <= j < i ==> results[perf[j].channel] == EfficiencyOf(perf[j])
    {
      FreshChannel(perf, i);
      ChannelKeysStep(perf, i);
      results := results[perf[i].channel := EfficiencyOf(perf[i])];
    }
    assert perf[..|perf|] == perf;
    forall s | s in perf ensures results[s.channel] == EfficiencyOf(s) {
      var j :| 0 <= j < |perf| && perf[j] == s;
    }
  }

  /** With distinct channels, the channel at `i` is not among the earlier ones. */
  lemma FreshChannel(perf: seq<ChannelSummary>, i: nat)
    requires NoDup(Map(perf, SummaryChannel)) && i < |perf|
    ensures forall j :: 0 <= j < i ==> perf[j].channel != perf[i].channel
  {
    forall j | 0 <= j < i ensures perf[j].channel != perf[i].channel {
      assert Map(perf, SummaryChannel)[j] != Map(perf, SummaryChannel)[i];
    }
  }

  /** The channels of a prefix grow by the next summary's channel. */
  lemma ChannelKeysStep(perf: seq<ChannelSummary>, i: nat)
    requires i < |perf|
    ensures (set s | s in perf[..i + 1] :: s.channel) == (set s | s in perf[..i] :: s.channel) + {perf[i].channel}
  {
    assert perf[..i + 1] == perf[..i] + [perf[i]];
  }

  // ---------------------------------------------------------------------------
  // calculate_budget_optimization_opportunities

  /** The `channel`, `roas` and `spend` of a summary row, as the opportunity lists hold them. */
  datatype ChannelFigure = ChannelFigure(channel: ChannelCell, roas: real, spend: real)

  datatype Reallocation = Reallocation(fromChannel: ChannelCell, toChannel: ChannelCell, amount: real,
                                       projectedNetGain: real, roiImprovement: real)

  datatype Opportunities = Opportunities(reallocation: Reallocation, scaleUp: seq<ChannelFigure>,
                                         optimize: seq<ChannelFigure>)

  function FigureOf(s: ChannelSummary): ChannelFigure
  {
    ChannelFigure(s.channel, s.ratios.roas, s.counts.spend)
  }

  predicate HighRoas(s: ChannelSummary)
  {
    s.ratios.roas > 3.0
  }

  predicate RoasGe(a: ChannelSummary, b: ChannelSummary)
  {
    a.ratios.roas >= b.ratios.roas
  }

  /** `r` moves 20% of the spend of `perf[j]`, a lowest-ROAS channel, to `perf[i]`,
      a highest-ROAS channel. */
  predicate IsReallocation(r: Reallocation, perf: seq<ChannelSummary>, i: nat, j: nat)
    requires i < |perf| && j < |perf|
  {
    var top := perf[i];
    var bottom := perf[j];
    && r.toChannel == top.channel && r.fromChannel == bottom.channel
    && (forall s :: s in perf ==> bottom.ratios.roas <= s.ratios.roas <= top.ratios.roas)
    && r.amount == 0.2 * bottom.counts.spend
    && r.projectedNetGain == r.amount * (top.ratios.roas - bottom.ratios.roas)
    && (r.amount > 0.0 ==> r.roiImprovement == top.ratios.roas - bottom.ratios.roas)
    && (r.amount <= 0.0 ==> r.roiImprovement == 0.0)
  }

  /** Moving `amount` gains `amount·(to − from)`, which per unit moved is `to − from`. */
  lemma NetGain(amount: real, to: real, from: real)
    ensures amount * to - amount * from == amount * (to - from)
    ensures amount > 0.0 ==> (amount * to - amount * from) / amount == to - from
  {
  }

  /** Moving 20% of `bottom`'s spend to `top`: the amount, the projected net gain
      and the return per unit moved. */
  function Reallocate(top: ChannelSummary, bottom: ChannelSummary): (r: Reallocation)
    ensures r.fromChannel == bottom.channel && r.toChannel == top.channel
    ensures r.amount == 0.2 * bottom.counts.spend
    ensures r.projectedNetGain == r.amount * (top.ratios.roas - bottom.ratios.roas)
    ensures r.amount > 0.0 ==> r.roiImprovement == top.ratios.roas - bottom.ratios.roas
    ensures r.amount <= 0.0 ==> r.roiImprovement == 0.0
  {
    var amount := bottom.counts.spend * 0.2;
    var gain := amount * top.ratios.roas;
    var loss := amount * bottom.ratios.roas;
    var net := gain - loss;
    NetGain(amount, top.ratios.roas, bottom.ratios.roas);
    Reallocation(bottom.channel, top.channel, amount, net, if amount > 0.0 then net / amount else 0.0)
  }

  /** `calculate_budget_optimization_opportunities`: nothing for fewer than two
      channels; otherwise the reallocation from the lowest- to the highest-ROAS
      channel and the scale-up (ROAS > 3) and optimize (ROAS < 2) lists. */
  method BudgetOpportunities(data: seq<FinalRow>) returns (o: Option<Opportunities>)
    ensures var perf := ChannelPerformance(data);
      && (o.None? <==> |perf| < 2)
      && (o.Some? ==>
            && (exists i, j :: 0 <= i < |perf| && 0 <= j < |perf| && IsReallocation(o.value.reallocation, perf, i, j))
            && o.value.scaleUp == Map(Filter(perf, HighRoas), FigureOf)
            && o.value.optimize == Map(Filter(perf, LowRoas), FigureOf))
  {
    o := PlanBudget(ChannelPerformance(data));
  }

  /** The body of `calculate_budget_optimization_opportunities` once the channel
      table is computed. */
  method PlanBudget(perf: seq<ChannelSummary>) returns (o: Option<Opportunities>)
    ensures o.None? <==> |perf| < 2
    ensures o.Some? ==>
      && (exists i, j :: 0 <= i < |perf| && 0 <= j < |perf| && IsReallocation(o.value.reallocation, perf, i, j))
      && o.value.scaleUp == Map(Filter(perf, HighRoas), FigureOf)
      && o.value.optimize == Map(Filter(perf, LowRoas), FigureOf)
  {
    if |perf| < 2 {
      return None;
    }
    assert TotalPreorder(RoasGe);
    SortSpec(perf, RoasGe);
    var sorted := Sort(perf, RoasGe);
    var top := sorted[0];
    var bottom := sorted[|sorted| - 1];
    var realloc := Reallocate(top, bottom);
    assert top in multiset(perf) && bottom in multiset(perf);
    var i :| 0 <= i < |perf| && perf[i] == top;
    var j :| 0 <= j < |perf| && perf[j] == bottom;
    forall s | s in perf ensures perf[j].ratios.roas <= s.ratios.roas <= perf[i].ratios.roas {
      assert s in multiset(sorted);
      SortedEnds(sorted, RoasGe, s);
    }
    ReallocateExtremes(perf, i, j);
    o := Some(Opportunities(realloc, Map(Filter(perf, HighRoas), FigureOf), Map(Filter(perf, LowRoas), FigureOf)));
  }

  /** Reallocating from a lowest- to a highest-ROAS channel. */
  lemma ReallocateExtremes(perf: seq<ChannelSummary>, i: nat, j: nat)
    requires i < |perf| && j < |perf|
    requires forall s :: s in perf ==> perf[j].ratios.roas <= s.ratios.roas <= perf[i].ratios.roas
    ensures IsReallocation(Reallocate(perf[i], perf[j]), perf, i, j)
  {
  }

  /** The reallocation never loses money when it moves a non-negative amount. */
  lemma NetGainNonNegative(r: Reallocation, perf: seq<ChannelSummary>, i: nat, j: nat)
    requires i < |perf| && j < |perf| && IsReallocation(r, perf, i, j)
    requires r.amount >= 0.0
    ensures r.projectedNetGain >= 0.0
  {
    assert perf[i] in perf;
  }

  /** No channel is both a scale-up and an optimize candidate, and each list holds
      exactly the channels over (under) its threshold. */
  lemma OpportunityListsDisjoint(perf: seq<ChannelSummary>)
    ensures forall f :: f in Map(Filter(perf, HighRoas), FigureOf) ==> f !in Map(Filter(perf, LowRoas), FigureOf)
    ensures forall s :: s in perf ==>
      (FigureOf(s) in Map(Filter(perf, HighRoas), FigureOf) <==> s.ratios.roas > 3.0)
    ensures forall s :: s in perf ==>
      (FigureOf(s) in Map(Filter(perf, LowRoas), FigureOf) <==> s.ratios.roas < 2.0)
  {
    var up := Filter(perf, HighRoas);
    var down := Filter(perf, LowRoas);
    forall f | f in Map(up, FigureOf) ensures f.roas > 3.0 {
      var k :| 0 <= k < |up| && Map(up, FigureOf)[k] == f;
      assert up[k] in up;
    }
    forall f | f in Map(down, FigureOf) ensures f.roas < 2.0 {
      var k :| 0 <= k < |down| && Map(down, FigureOf)[k] == f;
      assert down[k] in down;
    }
    forall s | s in perf && s.ratios.roas > 3.0 ensures FigureOf(s) in Map(up, FigureOf) {
      var k :| 0 <= k < |up| && up[k] == s;
      assert Map(up, FigureOf)[k] == FigureOf(s);
    }
    forall s | s in perf && s.ratios.roas < 2.0 ensures FigureOf(s) in Map(down, FigureOf) {
      var k :| 0 <= k < |down| && down[k] == s;
      assert Map(down, FigureOf)[k] == FigureOf(s);
    }
  }

  // ---------------------------------------------------------------------------
  // generate_executive_summary

  datatype Status = Excellent | Good | NeedsImprovement

  /** The status label: above 4 is excellent, above 2.5 good. */
  function StatusOf(overallRoas: real): Status
  {
    if overallRoas > 4.0 then Excellent
    else if overallRoas > 2.5 then Good
    else NeedsImprovement
  }

  function StatusRank(s: Status): nat
  {
    match s
    case NeedsImprovement => 0
    case Good => 1
    case Excellent => 2
  }

  /** A higher overall ROAS never earns a lower status. */
  lemma StatusMonotone(r1: real, r2: real)
    requires r1 <= r2
    ensures StatusRank(StatusOf(r1)) <= StatusRank(StatusOf(r2))
  {
  }

  /** The summary; `topRecommendations` holds the insights whose recommendation
      texts are shown and `topChannel` is `None` where the source shows 'N/A'. */
  datatype Summary = Summary(status: Status, overallRoas: real, attributionRate: real,
                             totalSpend: real, totalRevenue: real, topChannel: Option<ChannelCell>,
                             topRecommendations: seq<Insight>, keyInsights: seq<Insight>)

  predicate IsHigh(i: Insight)
  {
    PriorityOf(i) == High
  }

  /** The summary, or the error of the insight engine it runs. */
  function ExecutiveSummaryOf(perf: seq<ChannelSummary>, impact: Impact): (r: Result<Summary, InsightError>)
    ensures r.Failure? <==> InsightsOf(perf, impact).Failure?
  {
    match InsightsOf(perf, impact)
    case Failure(e) => Failure(e)
    case Success(insights) =>
      var high := Filter(insights, IsHigh);
      Success(Summary(StatusOf(impact.overallRoas), impact.overallRoas, impact.attributionRate,
                      impact.totalMarketingSpend, impact.totalAttributedRevenue,
                      if |perf| == 0 then None else Some(perf[0].channel),
                      high[..if |high| <= 3 then |high| else 3],
                      insights[..if |insights| <= 3 then |insights| else 3]))
  }

  /** `generate_executive_summary`. */
  function ExecutiveSummary(data: seq<FinalRow>): Result<Summary, InsightError>
  {
    ExecutiveSummaryOf(ChannelPerformance(data), BusinessImpact(data))
  }

  /** Of five rule outputs in order, only the first two are High priority. */
  lemma HighOfRules(a: seq<Insight>, b: seq<Insight>, c: seq<Insight>, d: seq<Insight>, e: seq<Insight>)
    requires forall x :: x in a ==> Kind(x) == 0
    requires forall x :: x in b ==> Kind(x) == 1
    requires forall x :: x in c + d + e ==> Kind(x) >= 2
    ensures Filter(a + b + c + d + e, IsHigh) == a + b
  {
    assert a + b + c + d + e == (a + b) + (c + d + e);
    FilterAppend(a + b, c + d + e, IsHigh);
    FilterNone(c + d + e, IsHigh);
    FilterAll(a + b, IsHigh);
  }

  /** Only the first two rules give High priority. */
  lemma HighInsights(perf: seq<ChannelSummary>, impact: Impact)
    ensures var r := InsightsOf(perf, impact);
      r.Success? ==> Filter(r.value, IsHigh) == TopRule(perf) + OptimizationList(perf)
  {
    InsightsAll(perf, impact);
    var c := ConversionRule(perf);
    var d := AttributionRule(impact);
    var e := RiskRule(perf);
    assert forall x :: x in c + d + e ==> Kind(x) >= 2;
    HighOfRules(TopRule(perf), OptimizationList(perf), c, d, e);
  }

  /** The recommendations are High-priority insights in their original order;
      only two rules give High priority, so there are at most two. */
  lemma SummaryRecommendations(perf: seq<ChannelSummary>, impact: Impact)
    ensures var s := ExecutiveSummaryOf(perf, impact);
      s.Success? ==>
        && |s.value.topRecommendations| <= 2
        && (forall x :: x in s.value.topRecommendations ==> PriorityOf(x) == High)
        && IsSubsequence(s.value.topRecommendations, InsightsOf(perf, impact).value)
  {
    var r := InsightsOf(perf, impact);
    if r.Success? {
      var high := Filter(r.value, IsHigh);
      HighInsights(perf, impact);
      assert high[..|high|] == high;
      FilterIsSubsequence(r.value, IsHigh);
    }
  }

  /** The summary fails exactly when the insight engine does; otherwise the key
      insights are the first three insights, the top channel is the
      highest-spend channel when there is one, and the status follows the
      overall ROAS bands. */
  lemma SummaryHeadline(perf: seq<ChannelSummary>, impact: Impact)
    ensures ExecutiveSummaryOf(perf, impact).Failure? <==> ZeroFill in LowRoasChannels(perf)
    ensures var s := ExecutiveSummaryOf(perf, impact);
      var insights := InsightsOf(perf, impact);
      s.Success? ==>
        && s.value.keyInsights == insights.value[..if |insights.value| <= 3 then |insights.value| else 3]
        && (s.value.topChannel.None? <==> |perf| == 0)
        && (s.value.status == Excellent <==> impact.overallRoas > 4.0)
        && (s.value.status == Good <==> 2.5 < impact.overallRoas <= 4.0)
  {
    InsightsAll(perf, impact);
  }
}
