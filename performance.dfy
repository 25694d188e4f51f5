/** The performance tables for campaigns, ad sets and top ads: one row per item
    with its conversion and ROAS changes, and a totals row summed over the items. */
module PerformanceSection {
  import opened Basics
  import opened Change

  /** One table row as the section receives it. */
  datatype Item = Item(name: string, preSpend: real, postSpend: real,
                       preConversions: real, postConversions: real, preRoas: real, postRoas: real)

  /** The totals row: the summed columns and the two ROAS figures. */
  datatype Totals = Totals(preSpend: real, postSpend: real,
                           preConversions: real, postConversions: real, preRoas: real, postRoas: real)

  const ZeroTotals: Totals := Totals(0.0, 0.0, 0.0, 0.0, 0.0, 0.0)

  /** `calculateTotals`: a left fold adding up spend and conversions, with both
      ROAS figures left at zero. */
  function CalculateTotals(items: seq<Item>): (t: Totals)
    ensures t.preRoas == 0.0 && t.postRoas == 0.0
  {
    if items == [] then ZeroTotals
    else
      var t := CalculateTotals(items[..|items| - 1]);
      var item := items[|items| - 1];
      Totals(t.preSpend + item.preSpend, t.postSpend + item.postSpend,
             t.preConversions + item.preConversions, t.postConversions + item.postConversions, 0.0, 0.0)
  }

  /** The totals row as rendered: the sums, with each ROAS taken as conversions per
      unit of spend, zero without spend. */
  function TotalsRow(items: seq<Item>): (t: Totals)
    ensures t.preSpend > 0.0 ==> t.preRoas * t.preSpend == t.preConversions
    ensures t.preSpend <= 0.0 ==> t.preRoas == 0.0
    ensures t.postSpend > 0.0 ==> t.postRoas * t.postSpend == t.postConversions
    ensures t.postSpend <= 0.0 ==> t.postRoas == 0.0
  {
    var t := CalculateTotals(items);
    t.(preRoas := GuardedRatio(t.preConversions, t.preSpend), postRoas := GuardedRatio(t.postConversions, t.postSpend))
  }

  /** The totals of two tables put together are the sums of their totals. */
  lemma {:induction false} TotalsAppend(a: seq<Item>, b: seq<Item>)
    ensures var t, ta, tb := CalculateTotals(a + b), CalculateTotals(a), CalculateTotals(b);
      t.preSpend == ta.preSpend + tb.preSpend && t.postSpend == ta.postSpend + tb.postSpend
      && t.preConversions == ta.preConversions + tb.preConversions
      && t.postConversions == ta.postConversions + tb.postConversions
    decreases |b|
  {
    if b == [] {
      assert a + b == a;
    } else {
      var b' := b[..|b| - 1];
      assert (a + b)[..|a + b| - 1] == a + b';
      assert (a + b)[|a + b| - 1] == b[|b| - 1];
      TotalsAppend(a, b');
    }
  }

  /** An empty table totals zero, and a one-item table totals that item. */
  lemma TotalsOfFew(item: Item)
    ensures CalculateTotals([]) == ZeroTotals
    ensures CalculateTotals([item])
      == Totals(item.preSpend, item.postSpend, item.preConversions, item.postConversions, 0.0, 0.0)
  {
    assert [item][..0] == [];
  }

  /** With non-negative columns, every item's spend and conversions are at most
      the totals. */
  lemma {:induction false} TotalsBoundItems(items: seq<Item>, i: int)
    requires 0 <= i < |items|
    requires forall k :: 0 <= k < |items| ==>
      items[k].preSpend >= 0.0 && items[k].postSpend >= 0.0
      && items[k].preConversions >= 0.0 && items[k].postConversions >= 0.0
    ensures var t := CalculateTotals(items);
      items[i].preSpend <= t.preSpend && items[i].postSpend <= t.postSpend
      && items[i].preConversions <= t.preConversions && items[i].postConversions <= t.postConversions
    decreases |items|
  {
    var init := items[..|items| - 1];
    TotalsNonNegative(init);
    if i < |items| - 1 {
      TotalsBoundItems(init, i);
    }
  }

  lemma {:induction false} TotalsNonNegative(items: seq<Item>)
    requires forall k :: 0 <= k < |items| ==>
      items[k].preSpend >= 0.0 && items[k].postSpend >= 0.0
      && items[k].preConversions >= 0.0 && items[k].postConversions >= 0.0
    ensures var t := CalculateTotals(items);
      t.preSpend >= 0.0 && t.postSpend >= 0.0 && t.preConversions >= 0.0 && t.postConversions >= 0.0
    decreases |items|
  {
    if items != [] {
      TotalsNonNegative(items[..|items| - 1]);
    }
  }

  /** `roasChange` and `convChange` of one row. */
  function RoasChange(item: Item): real { CalculateChange(item.preRoas, item.postRoas) }
  function ConvChange(item: Item): real { CalculateChange(item.preConversions, item.postConversions) }

  /** The conversion badge, shown only for a non-zero change: "default" for a rise,
      "destructive" for a fall. */
  function ConvBadge(item: Item): (b: Option<Variant>)
    ensures b.None? <==> ConvChange(item) == 0.0
    ensures b == Some(Default) <==> ConvChange(item) > 0.0
    ensures b == Some(Destructive) <==> ConvChange(item) < 0.0
  {
    var c := ConvChange(item);
    if c != 0.0 then Some(if c > 0.0 then Default else Destructive) else None
  }

  /** The conversion badge is hidden exactly when the conversions did not move, or
      they start from zero and stay there; from a positive count it shows a rise
      as good. */
  lemma ConvBadgeShown(item: Item)
    ensures ConvBadge(item).None?
      <==> item.postConversions == item.preConversions || (item.preConversions == 0.0 && item.postConversions <= 0.0)
    ensures item.preConversions > 0.0 ==> (ConvBadge(item) == Some(Default) <==> item.postConversions > item.preConversions)
  {
    ChangeZero(item.preConversions, item.postConversions);
    if item.preConversions > 0.0 {
      ChangeSign(item.preConversions, item.postConversions);
    }
  }

  /** The totals badge: "default" when the post-period ROAS is higher, otherwise
      "destructive". */
  function TotalsBadge(t: Totals): (v: Variant)
    ensures v == Default <==> t.postRoas > t.preRoas
    ensures v == Default || v == Destructive
  {
    if t.postRoas > t.preRoas then Default else Destructive
  }

  /** The totals badge's percentage, which divides by the pre-period ROAS without a
      guard: no finite number when that ROAS is zero. */
  function TotalsRoasChange(t: Totals): (c: Option<real>)
    ensures c.None? <==> t.preRoas == 0.0
    ensures c.Some? ==> c.value * t.preRoas == (t.postRoas - t.preRoas) * 100.0
  {
    if t.preRoas == 0.0 then None else Some(CalculateChange(t.preRoas, t.postRoas))
  }

  /** The totals row shows no finite percentage exactly when the pre period had no
      spend or no conversions. */
  lemma TotalsPercentUndefined(items: seq<Item>)
    ensures TotalsRoasChange(TotalsRow(items)).None?
      <==> CalculateTotals(items).preSpend <= 0.0 || CalculateTotals(items).preConversions == 0.0
  {
    var t := TotalsRow(items);
    if t.preSpend > 0.0 && t.preRoas == 0.0 {
      assert t.preConversions == t.preRoas * t.preSpend;
    }
  }
}
