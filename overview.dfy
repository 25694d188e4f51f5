/** The performance overview: ten metrics with their percentage change, the first
    four as cards, and a table labelling each change as an improvement or a
    decline. */
module OverviewSection {
  import opened Report
  import opened Change

  /** One metric: its title, both values, their change and which direction is good. */
  datatype OverviewMetric = OverviewMetric(name: string, pre: real, post: real, change: real, isGoodIncrease: bool)

  function Metric(name: string, pre: real, post: real, isGoodIncrease: bool): OverviewMetric {
    OverviewMetric(name, pre, post, CalculateChange(pre, post), isGoodIncrease)
  }

  /** The metrics whose increase is bad: they measure cost. */
  const CostMetrics: set<string> := {"Total Spend", "CPC", "CPM", "Cost per Conversion"}

  /** `metrics`, in the order the section lists them. */
  function OverviewMetrics(d: Overview): (ms: seq<OverviewMetric>)
    ensures |ms| == 10
    ensures forall i :: 0 <= i < |ms| ==> ms[i].change == CalculateChange(ms[i].pre, ms[i].post)
    ensures forall i :: 0 <= i < |ms| ==> (!ms[i].isGoodIncrease <==> ms[i].name in CostMetrics)
  {
    [ Metric("Total Spend", d.preSpend, d.postSpend, false),
      Metric("Impressions", d.preImpressions as real, d.postImpressions as real, true),
      Metric("Clicks", d.preClicks as real, d.postClicks as real, true),
      Metric("Conversions", d.preConversions as real, d.postConversions as real, true),
      Metric("CTR", d.preCtr, d.postCtr, true),
      Metric("CPC", d.preCpc, d.postCpc, false),
      Metric("CPM", d.preCpm, d.postCpm, false),
      Metric("ROAS", d.preRoas, d.postRoas, true),
      Metric("Cost per Conversion", d.preCostPerConversion, d.postCostPerConversion, false),
      Metric("Conversion Rate", d.preConversionRate, d.postConversionRate, true) ]
  }

  /** The key-metric cards: the first four metrics. */
  function Cards(d: Overview): (cs: seq<OverviewMetric>)
    ensures |cs| == 4
    ensures cs == OverviewMetrics(d)[..4]
  {
    OverviewMetrics(d)[..4]
  }

  /** The cards show spend, impressions, clicks and conversions of both periods. */
  lemma CardsAreTotals(d: Overview)
    ensures var cs := Cards(d);
      cs[0].name == "Total Spend" && cs[0].pre == d.preSpend && cs[0].post == d.postSpend
      && cs[1].name == "Impressions" && cs[1].pre == d.preImpressions as real && cs[1].post == d.postImpressions as real
      && cs[2].name == "Clicks" && cs[2].pre == d.preClicks as real && cs[2].post == d.postClicks as real
      && cs[3].name == "Conversions" && cs[3].pre == d.preConversions as real && cs[3].post == d.postConversions as real
  {
  }

  /** The metric names are distinct, so the table's keys are. */
  lemma MetricNamesDistinct(d: Overview)
    ensures var ms := OverviewMetrics(d);
      forall i, j :: 0 <= i < j < |ms| ==> ms[i].name != ms[j].name
  {
  }

  /** The impact column. */
  function Impact(m: OverviewMetric): (s: string)
    ensures s == "Improved" <==> IsPositive(m.isGoodIncrease, m.change)
    ensures s == "Declined" <==> IsNegative(m.isGoodIncrease, m.change)
    ensures s == "No Change" <==> m.change == 0.0
  {
    if IsPositive(m.isGoodIncrease, m.change) then "Improved"
    else if IsNegative(m.isGoodIncrease, m.change) then "Declined"
    else "No Change"
  }

  /** The card badge shows the size of the change without its sign. */
  function BadgePercent(m: OverviewMetric): (p: real)
    ensures p >= 0.0
    ensures p == m.change || p == -m.change
  {
    if m.change < 0.0 then -m.change else m.change
  }

  /** A metric is labelled "No Change" exactly when its two values are equal, or it
      starts from zero and does not become positive; the label and the badge style
      always agree. */
  lemma NoChangeMeaning(d: Overview, i: int)
    requires 0 <= i < 10
    ensures var m := OverviewMetrics(d)[i];
      (Impact(m) == "No Change" <==> m.post == m.pre || (m.pre == 0.0 && m.post <= 0.0))
      && (Impact(m) == "Improved" <==> VariantOf(m.isGoodIncrease, m.change) == Default)
      && (Impact(m) == "Declined" <==> VariantOf(m.isGoodIncrease, m.change) == Destructive)
  {
    var m := OverviewMetrics(d)[i];
    ChangeZero(m.pre, m.post);
  }

  /** A lower cost per conversion than a positive pre-period one is an improvement,
      a higher one a decline. */
  lemma CheaperConversionsImprove(d: Overview)
    requires d.preCostPerConversion > 0.0
    ensures var m := OverviewMetrics(d)[8];
      (Impact(m) == "Improved" <==> d.postCostPerConversion < d.preCostPerConversion)
      && (Impact(m) == "Declined" <==> d.postCostPerConversion > d.preCostPerConversion)
  {
    ChangeSign(d.preCostPerConversion, d.postCostPerConversion);
  }
}
