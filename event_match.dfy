/** The conversion-event matcher of `parseComprehensiveData`: whether an
    action reported by the ads API counts toward the event the user asked for. */
module EventMatch {
  import opened Basics

  /** The if-chain deciding `isMatch`, over the lowercased action type and the
      lowercased event name: exact equality, substring, then six pixel aliases
      (each alias literal of the route is written here as `PixelPrefix + event`). */
  predicate MatchChain(actionType: string, eventLower: string) {
    if actionType == eventLower then true
    else if Contains(actionType, eventLower) then true
    else if eventLower == "purchase" && actionType == PixelPrefix + "purchase" then true
    else if eventLower == "lead" && actionType == PixelPrefix + "lead" then true
    else if eventLower == "complete_registration"
      && actionType == PixelPrefix + "complete_registration" then true
    else if eventLower == "add_to_cart" && actionType == PixelPrefix + "add_to_cart" then true
    else if eventLower == "initiate_checkout"
      && actionType == PixelPrefix + "initiate_checkout" then true
    else if eventLower == "view_content" && actionType == PixelPrefix + "view_content" then true
    else false
  }

  /** Whether an action whose `action_type` may be missing matches `eventName`:
      both sides are lowercased and a missing type reads as the empty string. */
  predicate IsMatch(actionType: Option<string>, eventName: string) {
    MatchChain(Lower(actionType.GetOr("")), Lower(eventName))
  }

  /** The pixel prefix the ads API puts in front of standard events. */
  const PixelPrefix: string := "offsite_conversion.fb_pixel_"

  /** Every alias branch of the chain, and the equality branch, is subsumed by the
      substring branch: the chain is exactly "the action type contains the event". */
  lemma MatchChainIsContains(actionType: string, eventLower: string)
    ensures MatchChain(actionType, eventLower) <==> Contains(actionType, eventLower)
  {
    if actionType == eventLower {
      ContainsSelf(actionType);
    } else if Contains(actionType, eventLower) {
    } else if eventLower == "purchase" && actionType == PixelPrefix + "purchase" {
      AliasContained(actionType, eventLower);
    } else if eventLower == "lead" && actionType == PixelPrefix + "lead" {
      AliasContained(actionType, eventLower);
    } else if eventLower == "complete_registration"
      && actionType == PixelPrefix + "complete_registration" {
      AliasContained(actionType, eventLower);
    } else if eventLower == "add_to_cart" && actionType == PixelPrefix + "add_to_cart" {
      AliasContained(actionType, eventLower);
    } else if eventLower == "initiate_checkout"
      && actionType == PixelPrefix + "initiate_checkout" {
      AliasContained(actionType, eventLower);
    } else if eventLower == "view_content" && actionType == PixelPrefix + "view_content" {
      AliasContained(actionType, eventLower);
    }
  }

  /** An alias is the pixel prefix followed by the event, so it contains the event. */
  lemma AliasContained(actionType: string, eventLower: string)
    requires actionType == PixelPrefix + eventLower
    ensures Contains(actionType, eventLower)
  {
    ContainsSuffix(PixelPrefix, eventLower);
  }

  /** The matcher, case-insensitively: lowercased type contains lowercased event. */
  lemma IsMatchIsContains(actionType: Option<string>, eventName: string)
    ensures IsMatch(actionType, eventName) <==> Contains(Lower(actionType.GetOr("")), Lower(eventName))
  {
    MatchChainIsContains(Lower(actionType.GetOr("")), Lower(eventName));
  }

  /** An empty event name matches every action; a missing action type matches
      only the empty event name. */
  lemma MatchEdgeCases(actionType: Option<string>, eventName: string)
    ensures eventName == "" ==> IsMatch(actionType, eventName)
    ensures actionType.None? ==> (IsMatch(actionType, eventName) <==> eventName == "")
  {
    IsMatchIsContains(actionType, eventName);
    if eventName == "" {
      assert Lower(eventName) == "";
      ContainsEmpty(Lower(actionType.GetOr("")));
    }
    if actionType.None? {
      assert Lower(actionType.GetOr("")) == "";
      ContainsInEmpty(Lower(eventName));
    }
  }

  /** The matcher on the examples a reader would check first: case is ignored, the
      pixel-prefixed purchase counts as a purchase, and a lead is not a purchase. */
  lemma MatchExamples()
    ensures IsMatch(Some("Purchase"), "purchase")
    ensures IsMatch(Some("PURCHASE"), "purchase")
    ensures IsMatch(Some(PixelPrefix + "purchase"), "purchase")
    ensures !IsMatch(Some("lead"), "purchase")
  {
    var purchase := "purchase";
    LowerOfLowercase(purchase);
    assert Lower("Purchase") == purchase by {
      assert LowerChar('P') == 'p';
    }
    assert Lower("PURCHASE") == purchase by {
      assert LowerChar('P') == 'p' && LowerChar('U') == 'u' && LowerChar('R') == 'r' && LowerChar('C') == 'c';
      assert LowerChar('H') == 'h' && LowerChar('A') == 'a' && LowerChar('S') == 's' && LowerChar('E') == 'e';
    }
    IsMatchIsContains(Some("Purchase"), purchase);
    IsMatchIsContains(Some("PURCHASE"), purchase);
    ContainsSelf(purchase);
    LowerOfLowercase(PixelPrefix + purchase);
    IsMatchIsContains(Some(PixelPrefix + purchase), purchase);
    ContainsSuffix(PixelPrefix, purchase);
    LowerOfLowercase("lead");
    IsMatchIsContains(Some("lead"), purchase);
    MissingCharNotContained("lead", purchase, 'p');
  }
}
