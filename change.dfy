/** The percentage change every dashboard section shows, and how a change is
    classified as an improvement or a decline. Each section declares its own
    copy of `calculateChange`; the copies are identical, so it is defined once
    here. */
module Change {
  /** `calculateChange(pre, post)`: the relative change in percent; from a zero
      baseline any increase counts as 100 % and anything else as 0 %. */
  function CalculateChange(pre: real, post: real): (c: real)
    ensures pre != 0.0 ==> c * pre == (post - pre) * 100.0
    ensures pre == 0.0 ==> (c == 100.0 <==> post > 0.0) && (c == 0.0 <==> post <= 0.0)
  {
    if pre == 0.0 then (if post > 0.0 then 100.0 else 0.0)
    else ((post - pre) / pre) * 100.0
  }

  /** No movement is no change, whatever the baseline. */
  lemma ChangeOfEqual(x: real)
    ensures CalculateChange(x, x) == 0.0
  {
  }

  /** From a positive baseline the change has the sign of `post - pre`, and it is
      zero exactly when nothing moved. */
  lemma ChangeSign(pre: real, post: real)
    requires pre > 0.0
    ensures CalculateChange(pre, post) > 0.0 <==> post > pre
    ensures CalculateChange(pre, post) < 0.0 <==> post < pre
    ensures CalculateChange(pre, post) == 0.0 <==> post == pre
  {
    var c := CalculateChange(pre, post);
    assert c * pre == (post - pre) * 100.0;
    if c > 0.0 {
      assert c * pre > 0.0;
    } else if c < 0.0 {
      assert c * pre < 0.0;
    }
  }

  /** A change is zero exactly when there is no movement, or the baseline is zero
      and the new value is not positive. */
  lemma ChangeZero(pre: real, post: real)
    ensures CalculateChange(pre, post) == 0.0 <==> post == pre || (pre == 0.0 && post <= 0.0)
  {
    if pre != 0.0 {
      var c := CalculateChange(pre, post);
      if c == 0.0 {
        assert (post - pre) * 100.0 == 0.0;
      }
    }
  }

  /** `isPositive`: the change goes the good way for this metric. */
  predicate IsPositive(isGoodIncrease: bool, change: real) {
    if isGoodIncrease then change > 0.0 else change < 0.0
  }

  /** `isNegative`: the change goes the bad way for this metric. */
  predicate IsNegative(isGoodIncrease: bool, change: real) {
    if isGoodIncrease then change < 0.0 else change > 0.0
  }

  /** A change is never both good and bad, and a zero change is neither. */
  lemma ClassificationExclusive(isGoodIncrease: bool, change: real)
    ensures !(IsPositive(isGoodIncrease, change) && IsNegative(isGoodIncrease, change))
    ensures !IsPositive(isGoodIncrease, change) && !IsNegative(isGoodIncrease, change) <==> change == 0.0
    ensures IsPositive(isGoodIncrease, change) <==> IsNegative(!isGoodIncrease, change)
  {
  }

  /** The badge styles the sections use. */
  datatype Variant = Default | Destructive | Secondary | Outline

  /** `isPositive ? "default" : isNegative ? "destructive" : "secondary"`. */
  function VariantOf(isGoodIncrease: bool, change: real): (v: Variant)
    ensures v == Default <==> IsPositive(isGoodIncrease, change)
    ensures v == Destructive <==> IsNegative(isGoodIncrease, change)
    ensures v == Secondary <==> change == 0.0
  {
    if IsPositive(isGoodIncrease, change) then Default
    else if IsNegative(isGoodIncrease, change) then Destructive
    else Secondary
  }
}
