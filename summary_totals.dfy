/** The campaign-totals summary: six cards comparing the two periods, all but
    the static one with a change badge, and a table whose badges only tell good from bad. */
module SummaryTotalsSection {
  import opened Basics
  import opened Report
  import opened Change

  /** One card: its title, the two values, which direction is good, and whether
      it is a single figure that has no change to show. */
  datatype SummaryMetric = SummaryMetric(name: string, pre: real, post: real, isGoodIncrease: bool, isStatic: bool)

  /** `summaryMetrics`: spend (where less is better), conversions, conversion
      value, impressions, clicks and the post-period Meta ACR. */
  function SummaryMetrics(d: SummaryTotals): (ms: seq<SummaryMetric>)
    ensures |ms| == 6
    ensures forall i :: 0 <= i < |ms| ==> (ms[i].isStatic <==> i == 5)
    ensures forall i :: 0 <= i < |ms| ==> (ms[i].isGoodIncrease <==> i != 0)
  {
    [ SummaryMetric("Total Ad Spend", d.preSpend, d.postSpend, false, false),
      SummaryMetric("Total Conversions", d.preConversions as real, d.postConversions as real, true, false),
      SummaryMetric("Total Conversion Value", d.preConversionValue, d.postConversionValue, true, false),
      SummaryMetric("Total Impressions", d.preImpressions as real, d.postImpressions as real, true, false),
      SummaryMetric("Total Clicks", d.preClicks as real, d.postClicks as real, true, false),
      SummaryMetric("Meta ACR", d.metaACR, d.metaACR, true, true) ]
  }

  /** The change a card shows: zero for the static figure. */
  function CardChange(m: SummaryMetric): real {
    if m.isStatic then 0.0 else CalculateChange(m.pre, m.post)
  }

  /** The card badge: absent on the static figure, otherwise good, bad or
      neutral by the metric's direction. */
  function CardBadge(m: SummaryMetric): (b: Option<Variant>)
    ensures b.None? <==> m.isStatic
    ensures b.Some? ==> (b.value == Default <==> IsPositive(m.isGoodIncrease, CalculateChange(m.pre, m.post)))
    ensures b.Some? ==> (b.value == Destructive <==> IsNegative(m.isGoodIncrease, CalculateChange(m.pre, m.post)))
  {
    if m.isStatic then None else Some(VariantOf(m.isGoodIncrease, CardChange(m)))
  }

  /** The summary table's badge: "default" for a change the good way, and
      "destructive" for everything else, no change included. */
  function TableVariant(isGoodIncrease: bool, change: real): (v: Variant)
    ensures v == Default <==> IsPositive(isGoodIncrease, change)
    ensures v == Default || v == Destructive
  {
    if isGoodIncrease then (if change > 0.0 then Default else Destructive)
    else (if change < 0.0 then Default else Destructive)
  }

  /** The Meta ACR card shows the same figure twice, its change is taken as zero,
      and it has no change badge. */
  lemma MetaAcrIsStatic(d: SummaryTotals)
    ensures var m := SummaryMetrics(d)[5];
      m.pre == m.post == d.metaACR && CardChange(m) == 0.0 && CardBadge(m).None?
  {
  }

  /** Every other card compares the matching pre- and post-period totals, and its
      change is the percentage change between them. */
  lemma CardsCompareTotals(d: SummaryTotals)
    ensures var ms := SummaryMetrics(d);
      ms[0].pre == d.preSpend && ms[0].post == d.postSpend
      && ms[1].pre == d.preConversions as real && ms[1].post == d.postConversions as real
      && ms[2].pre == d.preConversionValue && ms[2].post == d.postConversionValue
      && ms[3].pre == d.preImpressions as real && ms[3].post == d.postImpressions as real
      && ms[4].pre == d.preClicks as real && ms[4].post == d.postClicks as real
      && forall i :: 0 <= i < 5 ==> CardChange(ms[i]) == CalculateChange(ms[i].pre, ms[i].post)
  {
  }

  /** Spending less than before, from a positive spend, is shown as good, and
      spending more as bad. */
  lemma LowerSpendIsGood(d: SummaryTotals)
    requires d.preSpend > 0.0
    ensures var m := SummaryMetrics(d)[0];
      (CardBadge(m) == Some(Default) <==> d.postSpend < d.preSpend)
      && (CardBadge(m) == Some(Destructive) <==> d.postSpend > d.preSpend)
  {
    ChangeSign(d.preSpend, d.postSpend);
  }

  /** More conversions than before, from a positive count, is shown as good. */
  lemma MoreConversionsAreGood(d: SummaryTotals)
    requires d.preConversions > 0
    ensures var m := SummaryMetrics(d)[1];
      (CardBadge(m) == Some(Default) <==> d.postConversions > d.preConversions)
      && (CardBadge(m) == Some(Destructive) <==> d.postConversions < d.preConversions)
  {
    ChangeSign(d.preConversions as real, d.postConversions as real);
  }

  /** The table and the cards agree except on a zero change, which the cards show
      as neutral and the table as bad. */
  lemma TableAgreesWithCards(isGoodIncrease: bool, change: real)
    ensures TableVariant(isGoodIncrease, change) == VariantOf(isGoodIncrease, change) <==> change != 0.0
    ensures change == 0.0 ==> TableVariant(isGoodIncrease, change) == Destructive
  {
  }
}
