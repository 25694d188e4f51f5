/** The raw insight records the ads API returns and the per-record amounts
    `parseComprehensiveData` reads from them. Numeric fields arrive already
    parsed (`parseInt` for counts, `parseFloat` for money); an absent or empty
    field is `None` and reads as the literal "0" the route substitutes. */
module Records {
  import opened Basics
  import opened EventMatch

  /** One entry of a record's `actions` array: how many times an action happened. */
  datatype ActionCount = ActionCount(actionType: Option<string>, value: Option<int>)

  /** One entry of a record's `action_values` array: the money an action brought in. */
  datatype ActionValue = ActionValue(actionType: Option<string>, value: Option<real>)

  /** One insight row. A dimension field is the empty string when the row does not
      carry it (the route's truthiness test cannot tell "absent" from ""); `actions`
      and `actionValues` are empty when the row has no such array. */
  datatype Record = Record(
    spend: Option<real>,
    impressions: Option<int>,
    clicks: Option<int>,
    actions: seq<ActionCount>,
    actionValues: seq<ActionValue>,
    campaignName: string,
    adsetName: string,
    adName: string,
    publisherPlatform: string,
    age: string,
    gender: string,
    country: string,
    region: Option<string>,
    devicePlatform: string)

  /** The five running sums kept for a period and for every group. */
  datatype Tally = Tally(spend: real, impressions: int, clicks: int, conversions: int, value: real)

  const Zero: Tally := Tally(0.0, 0, 0, 0, 0.0)

  function Plus(a: Tally, b: Tally): Tally {
    Tally(a.spend + b.spend, a.impressions + b.impressions, a.clicks + b.clicks,
          a.conversions + b.conversions, a.value + b.value)
  }

  /** Whether an action type matches the already lowercased event name: its
      lowercased form contains the event. The route decides this with the longer
      chain `MatchChain`, which `MatchChainIsContains` shows to be the same test. */
  predicate Matches(actionType: Option<string>, eventLower: string) {
    Contains(Lower(actionType.GetOr("")), eventLower)
  }

  /** The record's conversions: the counts of its matching `actions`, in array order. */
  function MatchedConversions(actions: seq<ActionCount>, eventLower: string): int {
    if actions == [] then 0
    else
      var a := actions[|actions| - 1];
      MatchedConversions(actions[..|actions| - 1], eventLower)
        + (if Matches(a.actionType, eventLower) then a.value.GetOr(0) else 0)
  }

  /** The record's conversion value: the amounts of its matching `action_values`,
      read from that array alone and never paired with `actions`. */
  function MatchedValue(values: seq<ActionValue>, eventLower: string): real {
    if values == [] then 0.0
    else
      var v := values[|values| - 1];
      MatchedValue(values[..|values| - 1], eventLower)
        + (if Matches(v.actionType, eventLower) then v.value.GetOr(0.0) else 0.0)
  }

  /** What one record adds to its period: spend, impressions and clicks with a missing
      field read as 0, and the matched conversions and value. */
  function RecordTally(r: Record, eventLower: string): Tally {
    Tally(r.spend.GetOr(0.0), r.impressions.GetOr(0), r.clicks.GetOr(0),
          MatchedConversions(r.actions, eventLower), MatchedValue(r.actionValues, eventLower))
  }

  /** Only matching actions count: a record none of whose actions matches has no
      conversions, however large their counts. */
  lemma {:induction false} UnmatchedActionsIgnored(actions: seq<ActionCount>, eventLower: string)
    requires forall i :: 0 <= i < |actions| ==> !Matches(actions[i].actionType, eventLower)
    ensures MatchedConversions(actions, eventLower) == 0
  {
    if actions != [] {
      UnmatchedActionsIgnored(actions[..|actions| - 1], eventLower);
    }
  }

  /** The conversions of two runs of actions add up: the count is a sum over entries. */
  lemma {:induction false} MatchedConversionsAppend(a: seq<ActionCount>, b: seq<ActionCount>, eventLower: string)
    ensures MatchedConversions(a + b, eventLower) == MatchedConversions(a, eventLower) + MatchedConversions(b, eventLower)
  {
    if b == [] {
      assert a + b == a;
    } else {
      MatchedConversionsAppend(a, b[..|b| - 1], eventLower);
      assert (a + b)[..|a + b| - 1] == a + b[..|b| - 1];
    }
  }

  /** The inner loop over `actions`: add up the counts of the matching ones. */
  method SumMatchingActions(actions: seq<ActionCount>, eventLower: string) returns (conversions: int)
    ensures conversions == MatchedConversions(actions, eventLower)
  {
    conversions := 0;
    for i := 0 to |actions|
      invariant conversions == MatchedConversions(actions[..i], eventLower)
    {
      var action := actions[i];
      var actionType := Lower(action.actionType.GetOr(""));
      var actionValue := action.value.GetOr(0);
      var isMatch := MatchChain(actionType, eventLower);
      MatchChainIsContains(actionType, eventLower);
      if isMatch {
        conversions := conversions + actionValue;
      }
      assert actions[..i + 1][..i] == actions[..i];
    }
    assert actions[..|actions|] == actions;
  }

  /** The inner loop over `action_values`: add up the amounts of the matching ones. */
  method SumMatchingValues(values: seq<ActionValue>, eventLower: string) returns (value: real)
    ensures value == MatchedValue(values, eventLower)
  {
    value := 0.0;
    for i := 0 to |values|
      invariant value == MatchedValue(values[..i], eventLower)
    {
      var actionValue := values[i];
      var actionType := Lower(actionValue.actionType.GetOr(""));
      var conversionValue := actionValue.value.GetOr(0.0);
      var isMatch := MatchChain(actionType, eventLower);
      MatchChainIsContains(actionType, eventLower);
      if isMatch {
        value := value + conversionValue;
      }
      assert values[..i + 1][..i] == values[..i];
    }
    assert values[..|values|] == values;
  }
}
