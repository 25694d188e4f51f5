/** The advanced-metrics section: ROAS, cost per conversion, savings, average
    order value and the two ROI figures derived from the summary totals and the
    two amounts the user types in. */
module AdvancedMetricsSection {
  import opened Basics

  /** The section's input. */
  datatype AdvancedMetrics = AdvancedMetrics(
    preSpend: real, postSpend: real,
    preConversions: real, postConversions: real,
    preConversionValue: real, postConversionValue: real)

  /** A guarded ratio in percent: `den > 0 ? (num / den) * 100 : 0`. */
  function Percent(num: real, den: real): (r: real)
    ensures den > 0.0 ==> r * den == num * 100.0
    ensures den <= 0.0 ==> r == 0.0
  {
    var q := GuardedRatio(num, den);
    assert den > 0.0 ==> q * 100.0 * den == (q * den) * 100.0;
    q * 100.0
  }

  /** `preRoas` and `postRoas`: conversion value per unit of spend. */
  function PreRoas(d: AdvancedMetrics): real { GuardedRatio(d.preConversionValue, d.preSpend) }
  function PostRoas(d: AdvancedMetrics): real { GuardedRatio(d.postConversionValue, d.postSpend) }

  /** `preCostPerConversion` and `postCostPerConversion`: spend per conversion. */
  function PreCostPerConversion(d: AdvancedMetrics): real { GuardedRatio(d.preSpend, d.preConversions) }
  function PostCostPerConversion(d: AdvancedMetrics): real { GuardedRatio(d.postSpend, d.postConversions) }

  /** `savingOnOnePurchase`: how much cheaper one conversion became. */
  function SavingOnOnePurchase(d: AdvancedMetrics): real {
    PreCostPerConversion(d) - PostCostPerConversion(d)
  }

  /** `decreaseInCostPerConversion`, written out on its own in the section. */
  function DecreaseInCostPerConversion(d: AdvancedMetrics): real {
    Percent(PreCostPerConversion(d) - PostCostPerConversion(d), PreCostPerConversion(d))
  }

  /** `percentageSaving`: the saving relative to the pre-period cost per conversion. */
  function PercentageSaving(d: AdvancedMetrics): real {
    Percent(SavingOnOnePurchase(d), PreCostPerConversion(d))
  }

  /** `netSaving`: the saving on every post-period conversion. */
  function NetSaving(d: AdvancedMetrics): real {
    SavingOnOnePurchase(d) * d.postConversions
  }

  /** `preAverage` and `postAverage`: the average order value. */
  function PreAverage(d: AdvancedMetrics): real { GuardedRatio(d.preConversionValue, d.preConversions) }
  function PostAverage(d: AdvancedMetrics): real { GuardedRatio(d.postConversionValue, d.postConversions) }

  /** `additional`: how much larger the average order became. */
  function Additional(d: AdvancedMetrics): real { PostAverage(d) - PreAverage(d) }

  /** `percentageAdditional`: that growth relative to the pre-period average. */
  function PercentageAdditional(d: AdvancedMetrics): real { Percent(Additional(d), PreAverage(d)) }

  /** `additionalRevenue`: the growth on every post-period conversion. */
  function AdditionalRevenue(d: AdvancedMetrics): real { Additional(d) * d.postConversions }

  /** `roiOnAddRevenue`: the additional revenue in post-period orders. */
  function RoiOnAddRevenue(d: AdvancedMetrics): real { GuardedRatio(AdditionalRevenue(d), PostAverage(d)) }

  /** `roiOnSaving`, for the subscription amount and the net saving on a qualified
      lead entered by the user: zero without a subscription; otherwise the
      post-period value when the net saving beats the qualified-lead saving, and
      that saving itself otherwise, per unit of subscription. */
  function RoiOnSaving(d: AdvancedMetrics, subscriptionAmount: real, netSavingOnQualifiedLead: real): (r: real)
    ensures subscriptionAmount > 0.0 ==>
      r * subscriptionAmount
        == (if NetSaving(d) > netSavingOnQualifiedLead then d.postConversionValue else netSavingOnQualifiedLead)
    ensures subscriptionAmount <= 0.0 ==> r == 0.0
  {
    GuardedRatio(if NetSaving(d) > netSavingOnQualifiedLead then d.postConversionValue else netSavingOnQualifiedLead,
                 subscriptionAmount)
  }

  /** The two ways the section computes the relative saving agree. */
  lemma SavingFiguresAgree(d: AdvancedMetrics)
    ensures DecreaseInCostPerConversion(d) == PercentageSaving(d)
  {
  }

  /** The ratios are each guarded by their own denominator. */
  lemma RatiosGuarded(d: AdvancedMetrics)
    ensures d.preSpend > 0.0 ==> PreRoas(d) * d.preSpend == d.preConversionValue
    ensures d.preSpend <= 0.0 ==> PreRoas(d) == 0.0
    ensures d.postSpend > 0.0 ==> PostRoas(d) * d.postSpend == d.postConversionValue
    ensures d.postSpend <= 0.0 ==> PostRoas(d) == 0.0
    ensures d.preConversions > 0.0 ==> PreCostPerConversion(d) * d.preConversions == d.preSpend
    ensures d.preConversions <= 0.0 ==> PreCostPerConversion(d) == 0.0 && PreAverage(d) == 0.0
    ensures d.postConversions > 0.0 ==> PostCostPerConversion(d) * d.postConversions == d.postSpend
    ensures d.postConversions <= 0.0 ==> PostCostPerConversion(d) == 0.0 && PostAverage(d) == 0.0
    ensures PreAverage(d) <= 0.0 ==> PercentageAdditional(d) == 0.0
    ensures PreCostPerConversion(d) <= 0.0 ==> PercentageSaving(d) == 0.0
    ensures PostAverage(d) <= 0.0 ==> RoiOnAddRevenue(d) == 0.0
  {
  }

  /** With conversions in the post period, the net saving is what the post-period
      conversions would have cost at the pre-period cost per conversion, minus
      what they did cost. */
  lemma NetSavingMeaning(d: AdvancedMetrics)
    requires d.postConversions > 0.0
    ensures NetSaving(d) == PreCostPerConversion(d) * d.postConversions - d.postSpend
  {
    var pre, post := PreCostPerConversion(d), PostCostPerConversion(d);
    assert post * d.postConversions == d.postSpend;
    assert (pre - post) * d.postConversions == pre * d.postConversions - post * d.postConversions;
  }

  /** With conversions in the post period, the additional revenue is the post-period
      value minus what the post-period conversions would have brought at the
      pre-period average order value. */
  lemma AdditionalRevenueMeaning(d: AdvancedMetrics)
    requires d.postConversions > 0.0
    ensures AdditionalRevenue(d) == d.postConversionValue - PreAverage(d) * d.postConversions
  {
    var pre, post := PreAverage(d), PostAverage(d);
    assert post * d.postConversions == d.postConversionValue;
    assert (post - pre) * d.postConversions == post * d.postConversions - pre * d.postConversions;
  }

  /** A cheaper post period (lower cost per conversion, from a positive one) is a
      positive saving percentage, and a dearer one a negative percentage. */
  lemma SavingSign(d: AdvancedMetrics)
    requires PreCostPerConversion(d) > 0.0
    ensures PercentageSaving(d) > 0.0 <==> PostCostPerConversion(d) < PreCostPerConversion(d)
    ensures PercentageSaving(d) < 0.0 <==> PostCostPerConversion(d) > PreCostPerConversion(d)
  {
    var p, s := PreCostPerConversion(d), PercentageSaving(d);
    assert s * p == (p - PostCostPerConversion(d)) * 100.0;
    if s > 0.0 {
      assert s * p > 0.0;
    } else if s < 0.0 {
      assert s * p < 0.0;
    }
  }
}
