/** The geographic breakdown: for each country (and region, when the data has
    one) the two periods' conversions per unit of spend and the conversion
    change. */
module GeographicSection {
  import opened Basics
  import opened Change

  /** One location row as the section receives it. */
  datatype Location = Location(country: string, region: Option<string>,
                               preSpend: real, postSpend: real,
                               preConversions: real, postConversions: real)

  /** `calculateRoas`: conversions per unit of spend, zero without spend. This is
      a conversion rate per dollar, not the value-based ROAS of the other sections. */
  function CalculateRoas(conversions: real, spend: real): (r: real)
    ensures spend > 0.0 ==> r * spend == conversions
    ensures spend <= 0.0 ==> r == 0.0
  {
    GuardedRatio(conversions, spend)
  }

  function PreRoas(l: Location): real { CalculateRoas(l.preConversions, l.preSpend) }
  function PostRoas(l: Location): real { CalculateRoas(l.postConversions, l.postSpend) }

  /** `convChange` and its three-way badge. */
  function ConvChange(l: Location): real { CalculateChange(l.preConversions, l.postConversions) }
  function ConvBadge(l: Location): Variant { VariantOf(true, ConvChange(l)) }

  /** The location column: the country, with the region below it when present. */
  function LocationLines(l: Location): (lines: seq<string>)
    ensures 1 <= |lines| <= 2 && lines[0] == l.country
    ensures |lines| == 2 <==> l.region.Some? && l.region.value != ""
    ensures |lines| == 2 ==> lines[1] == l.region.value
  {
    if l.region.Some? && l.region.value != "" then [l.country, l.region.value] else [l.country]
  }

  /** Each period's figure depends only on that period's columns. */
  lemma RoasPerPeriod(l: Location, preSpend: real, preConversions: real)
    ensures PostRoas(l.(preSpend := preSpend, preConversions := preConversions)) == PostRoas(l)
    ensures PreRoas(l.(postSpend := preSpend, postConversions := preConversions)) == PreRoas(l)
  {
  }

  /** With non-negative conversions and positive spend the figure is non-negative,
      and it grows with conversions at fixed spend. */
  lemma RoasMonotone(c1: real, c2: real, spend: real)
    requires spend > 0.0 && 0.0 <= c1 <= c2
    ensures 0.0 <= CalculateRoas(c1, spend) <= CalculateRoas(c2, spend)
  {
    var r1, r2 := CalculateRoas(c1, spend), CalculateRoas(c2, spend);
    assert 0.0 * spend <= r1 * spend;
    ScaleMonotone(0.0, r1, spend);
    assert r1 * spend <= r2 * spend;
    ScaleMonotone(r1, r2, spend);
  }

  /** The badge is "default" exactly for a rise in conversions from a positive
      count, or any positive count from zero; "destructive" for a fall from a
      positive count; "secondary" otherwise. */
  lemma ConvBadgeMeaning(l: Location)
    requires l.preConversions >= 0.0
    ensures ConvBadge(l) == Default <==> l.postConversions > l.preConversions
    ensures ConvBadge(l) == Destructive <==> l.preConversions > 0.0 && l.postConversions < l.preConversions
    ensures ConvBadge(l) == Secondary
      <==> l.postConversions == l.preConversions || (l.preConversions == 0.0 && l.postConversions <= 0.0)
  {
    ChangeZero(l.preConversions, l.postConversions);
    if l.preConversions > 0.0 {
      ChangeSign(l.preConversions, l.postConversions);
    }
  }
}
