/** The placement breakdown: each placement's share of the post-period spend and
    its conversion change. */
module PlacementSection {
  import opened Basics
  import opened Change

  /** One placement row as the section receives it. */
  datatype Placement = Placement(name: string, preSpend: real, postSpend: real,
                                 preImpressions: real, postImpressions: real,
                                 preConversions: real, postConversions: real)

  /** `totalPostSpend`: the post-period spend of all placements, folded from the left. */
  function TotalPostSpend(data: seq<Placement>): real {
    if data == [] then 0.0 else TotalPostSpend(data[..|data| - 1]) + data[|data| - 1].postSpend
  }

  /** `spendShare`: the placement's percentage of the total, zero when there is
      no positive total. */
  function SpendShare(p: Placement, total: real): (r: real)
    ensures total > 0.0 ==> r * total == p.postSpend * 100.0
    ensures total <= 0.0 ==> r == 0.0
  {
    var q := GuardedRatio(p.postSpend, total);
    assert total > 0.0 ==> q * 100.0 * total == (q * total) * 100.0;
    q * 100.0
  }

  /** The shares of all rows added up. */
  function SumShares(data: seq<Placement>, total: real): real {
    if data == [] then 0.0 else SumShares(data[..|data| - 1], total) + SpendShare(data[|data| - 1], total)
  }

  predicate NonNegativeSpend(data: seq<Placement>) {
    forall k :: 0 <= k < |data| ==> data[k].postSpend >= 0.0
  }

  /** Scaled by the total, the shares add up to a hundred times the spend. */
  lemma {:induction false} SumSharesScaled(data: seq<Placement>, total: real)
    requires total > 0.0
    ensures SumShares(data, total) * total == TotalPostSpend(data) * 100.0
    decreases |data|
  {
    if data != [] {
      var init, last := data[..|data| - 1], data[|data| - 1];
      SumSharesScaled(init, total);
      var s, r := SumShares(init, total), SpendShare(last, total);
      assert (s + r) * total == s * total + r * total;
      assert (TotalPostSpend(init) + last.postSpend) * 100.0 == TotalPostSpend(init) * 100.0 + last.postSpend * 100.0;
    }
  }

  /** Whenever some post-period spend was made, the shares add up to 100 %. */
  lemma SharesSumTo100(data: seq<Placement>)
    requires TotalPostSpend(data) > 0.0
    ensures SumShares(data, TotalPostSpend(data)) == 100.0
  {
    var t := TotalPostSpend(data);
    SumSharesScaled(data, t);
    CancelPositive(SumShares(data, t), 100.0, t);
  }

  /** With no negative spend, a placement never spent more than all of them. */
  lemma {:induction false} PostSpendBounded(data: seq<Placement>, i: int)
    requires 0 <= i < |data| && NonNegativeSpend(data)
    ensures 0.0 <= data[i].postSpend <= TotalPostSpend(data)
    decreases |data|
  {
    var init := data[..|data| - 1];
    assert NonNegativeSpend(init);
    TotalNonNegative(init);
    if i < |data| - 1 {
      PostSpendBounded(init, i);
    }
  }

  lemma {:induction false} TotalNonNegative(data: seq<Placement>)
    requires NonNegativeSpend(data)
    ensures TotalPostSpend(data) >= 0.0
    decreases |data|
  {
    if data != [] {
      var init := data[..|data| - 1];
      assert NonNegativeSpend(init);
      TotalNonNegative(init);
    }
  }

  /** With no negative spend, every share is a percentage between 0 and 100. */
  lemma ShareBounds(data: seq<Placement>, i: int)
    requires 0 <= i < |data| && NonNegativeSpend(data)
    ensures 0.0 <= SpendShare(data[i], TotalPostSpend(data)) <= 100.0
  {
    PostSpendBounded(data, i);
    ShareOfPart(data[i], TotalPostSpend(data));
  }

  /** The share of a placement whose spend is part of the total lies in [0, 100]. */
  lemma ShareOfPart(p: Placement, total: real)
    requires 0.0 <= p.postSpend <= total
    ensures 0.0 <= SpendShare(p, total) <= 100.0
  {
    if total > 0.0 {
      var r := SpendShare(p, total);
      assert 0.0 * total <= r * total;
      ScaleMonotone(0.0, r, total);
      assert r * total <= 100.0 * total;
      ScaleMonotone(r, 100.0, total);
    }
  }

  /** `convChange` and its badge: "default" for a rise, "destructive" for a fall,
      "secondary" for none. */
  function ConvChange(p: Placement): real { CalculateChange(p.preConversions, p.postConversions) }

  function ConvBadge(p: Placement): Variant { VariantOf(true, ConvChange(p)) }

  /** From a positive count the badge follows the direction of the conversions;
      it is neutral exactly when they did not move or stayed at or below zero. */
  lemma ConvBadgeMeaning(p: Placement)
    ensures ConvBadge(p) == Secondary
      <==> p.postConversions == p.preConversions || (p.preConversions == 0.0 && p.postConversions <= 0.0)
    ensures p.preConversions > 0.0 ==>
      (ConvBadge(p) == Default <==> p.postConversions > p.preConversions)
      && (ConvBadge(p) == Destructive <==> p.postConversions < p.preConversions)
    ensures p.preConversions == 0.0 ==> ConvBadge(p) != Destructive
  {
    ChangeZero(p.preConversions, p.postConversions);
    if p.preConversions > 0.0 {
      ChangeSign(p.preConversions, p.postConversions);
    }
  }
}
