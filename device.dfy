/** The device breakdown: an icon chosen from the platform name, the conversion
    change, and the conversions-per-dollar efficiency of both periods. */
module DeviceSection {
  import opened Basics
  import opened Change

  /** One device row as the section receives it. */
  datatype Device = Device(platform: string, preSpend: real, postSpend: real,
                           preConversions: real, postConversions: real)

  datatype Icon = Smartphone | Tablet | Monitor

  /** The lowercased platform names a phone. */
  predicate NamesPhone(p: string) {
    Contains(p, "mobile") || Contains(p, "android") || Contains(p, "ios")
  }

  /** The lowercased platform names a tablet. */
  predicate NamesTablet(p: string) {
    Contains(p, "tablet") || Contains(p, "ipad")
  }

  /** `getDeviceIcon`: phone names first, then tablet names, a monitor otherwise. */
  function GetDeviceIcon(platform: string): Icon {
    var p := Lower(platform);
    if NamesPhone(p) then Smartphone else if NamesTablet(p) then Tablet else Monitor
  }

  /** The icon in terms of the lowercased name: phone names win over tablet names. */
  lemma IconCases(platform: string)
    ensures GetDeviceIcon(platform) == Smartphone <==> NamesPhone(Lower(platform))
    ensures GetDeviceIcon(platform) == Tablet <==> !NamesPhone(Lower(platform)) && NamesTablet(Lower(platform))
    ensures GetDeviceIcon(platform) == Monitor <==> !NamesPhone(Lower(platform)) && !NamesTablet(Lower(platform))
  {
  }

  /** The choice ignores letter case. */
  lemma IconIgnoresCase(platform: string)
    ensures GetDeviceIcon(Lower(platform)) == GetDeviceIcon(platform)
  {
    LowerIdempotent(platform);
  }

  /** Both mobile platforms of the device breakdown get the phone icon. */
  lemma MobilePlatformsArePhones()
    ensures GetDeviceIcon("mobile_app") == Smartphone
    ensures GetDeviceIcon("mobile_web") == Smartphone
  {
    LowerOfLowercase("mobile_app");
    assert OccursAt("mobile_app", "mobile", 0);
    LowerOfLowercase("mobile_web");
    assert OccursAt("mobile_web", "mobile", 0);
  }

  /** The desktop platform gets the monitor icon. */
  lemma DesktopIsMonitor()
    ensures GetDeviceIcon("desktop") == Monitor
  {
    var d := "desktop";
    LowerOfLowercase(d);
    MissingCharNotContained(d, "mobile", 'm');
    MissingCharNotContained(d, "android", 'a');
    MissingCharNotContained(d, "ios", 'i');
    MissingCharNotContained(d, "tablet", 'a');
    MissingCharNotContained(d, "ipad", 'i');
  }

  /** An iPad gets the tablet icon, in any letter case. */
  lemma IpadIsTablet()
    ensures GetDeviceIcon("ipad") == Tablet
    ensures GetDeviceIcon("iPad") == Tablet
  {
    var i := "ipad";
    LowerOfLowercase(i);
    MissingCharNotContained(i, "mobile", 'm');
    MissingCharNotContained(i, "android", 'n');
    MissingCharNotContained(i, "ios", 'o');
    assert OccursAt(i, "ipad", 0);
    assert Lower("iPad") == i by {
      assert LowerChar('P') == 'p';
    }
    IconIgnoresCase("iPad");
  }

  /** An Android tablet gets the phone icon: phone names are tested first. */
  lemma AndroidTabletIsPhone()
    ensures GetDeviceIcon("android tablet") == Smartphone
  {
    var a := "android tablet";
    LowerOfLowercase(a);
    assert OccursAt(a, "android", 0);
  }

  /** `preEfficiency` and `postEfficiency`: conversions per unit of spend, zero
      without spend. */
  function Efficiency(conversions: real, spend: real): (e: real)
    ensures spend > 0.0 ==> e * spend == conversions
    ensures spend <= 0.0 ==> e == 0.0
  {
    GuardedRatio(conversions, spend)
  }

  function PreEfficiency(d: Device): real { Efficiency(d.preConversions, d.preSpend) }
  function PostEfficiency(d: Device): real { Efficiency(d.postConversions, d.postSpend) }

  /** `convChange` and `efficiencyChange`, each with its three-way badge. */
  function ConvChange(d: Device): real { CalculateChange(d.preConversions, d.postConversions) }
  function EfficiencyChange(d: Device): real { CalculateChange(PreEfficiency(d), PostEfficiency(d)) }
  function ConvBadge(d: Device): Variant { VariantOf(true, ConvChange(d)) }
  function EfficiencyBadge(d: Device): Variant { VariantOf(true, EfficiencyChange(d)) }

  /** With the same positive spend in both periods, efficiency moves exactly as the
      conversions do, so the two badges agree. */
  lemma SameSpendSameBadges(d: Device)
    requires d.preSpend > 0.0 && d.postSpend == d.preSpend && d.preConversions > 0.0
    ensures EfficiencyBadge(d) == ConvBadge(d)
  {
    var s := d.preSpend;
    var a, b := PreEfficiency(d), PostEfficiency(d);
    assert a * s == d.preConversions && b * s == d.postConversions;
    assert (b - a) * s == d.postConversions - d.preConversions;
    assert 0.0 * s <= a * s;
    ScaleMonotone(0.0, a, s);
    ChangeSign(a, b);
    ChangeSign(d.preConversions, d.postConversions);
    if b > a {
      assert (b - a) * s > 0.0;
    } else if b < a {
      assert (a - b) * s > 0.0;
    }
  }

  /** More conversions from the same or a smaller positive spend never show a
      worse efficiency. */
  lemma MoreForLessIsMoreEfficient(d: Device)
    requires 0.0 < d.postSpend <= d.preSpend && 0.0 <= d.preConversions <= d.postConversions
    ensures PreEfficiency(d) <= PostEfficiency(d)
    ensures EfficiencyBadge(d) != Destructive
  {
    var a, b := PreEfficiency(d), PostEfficiency(d);
    assert a * d.preSpend == d.preConversions && b * d.postSpend == d.postConversions;
    assert 0.0 * d.preSpend <= a * d.preSpend;
    ScaleMonotone(0.0, a, d.preSpend);
    assert a * (d.preSpend - d.postSpend) >= 0.0;
    assert a * d.postSpend <= a * d.preSpend;
    assert a * d.postSpend <= b * d.postSpend;
    ScaleMonotone(a, b, d.postSpend);
    if a > 0.0 {
      ChangeSign(a, b);
    }
  }
}
