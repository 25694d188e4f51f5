/** The simpler insights route: `fetchMetaAdsInsights` follows the pages of a
    period until one has no next link, and `parseMetaData` sums spend,
    conversions, and conversion value split into website, in-app and offline
    channels. */
module Insights {
  import opened Basics
  import opened Records
  import opened EventMatch
  import opened Pagination

  /** One `actions` entry. Its `action_type` is always present: the route
      lowercases it without a check. */
  datatype InsightAction = InsightAction(actionType: string, value: Option<int>)

  /** One `action_values` entry. */
  datatype InsightValue = InsightValue(actionType: string, value: Option<real>)

  /** One ad's insight row. */
  datatype AdData = AdData(spend: Option<real>, actions: seq<InsightAction>, actionValues: seq<InsightValue>)

  /** The channel a conversion value is credited to. */
  datatype Channel = Website | InApp | Offline

  /** `ParsedStats`. */
  datatype ParsedStats = ParsedStats(
    spend: real, totalConversions: int,
    websiteValue: real, inappValue: real, offlineValue: real,
    websiteRoas: real, inappRoas: real, offlineRoas: real,
    totalValue: real, roas: real)

  /** The else-if chain over an already lowercased action type: the first channel
      marker found decides, and the event must be contained as well. */
  function ChannelOf(actionType: string, eventLower: string): Option<Channel> {
    if Contains(actionType, "offsite_conversion") && Contains(actionType, eventLower) then Some(Website)
    else if Contains(actionType, "app_custom_event") && Contains(actionType, eventLower) then Some(InApp)
    else if Contains(actionType, "offline_conversion") && Contains(actionType, eventLower) then Some(Offline)
    else None
  }

  /** A value is credited to a channel exactly when its type contains the event
      and that channel's marker, and no marker of a channel tested earlier. */
  lemma ChannelPrecedence(t: string, e: string)
    ensures ChannelOf(t, e) == Some(Website) <==> Contains(t, e) && Contains(t, "offsite_conversion")
    ensures ChannelOf(t, e) == Some(InApp) <==>
      Contains(t, e) && !Contains(t, "offsite_conversion") && Contains(t, "app_custom_event")
    ensures ChannelOf(t, e) == Some(Offline) <==>
      Contains(t, e) && !Contains(t, "offsite_conversion") && !Contains(t, "app_custom_event")
      && Contains(t, "offline_conversion")
    ensures ChannelOf(t, e).None? <==>
      !Contains(t, e) || !(Contains(t, "offsite_conversion") || Contains(t, "app_custom_event")
                           || Contains(t, "offline_conversion"))
  {
  }

  /** A plain event type such as "purchase" carries no channel marker, so its
      value is credited nowhere. */
  lemma PlainEventValueIgnored()
    ensures ChannelOf("purchase", "purchase").None?
  {
    MissingCharNotContained("purchase", "offsite_conversion", 'f');
    MissingCharNotContained("purchase", "app_custom_event", 'm');
    MissingCharNotContained("purchase", "offline_conversion", 'f');
  }

  /** The conversions of one ad: the counts of the actions whose lowercased type
      contains the event. */
  function ActionConversions(actions: seq<InsightAction>, eventLower: string): int {
    if actions == [] then 0
    else
      var a := actions[|actions| - 1];
      ActionConversions(actions[..|actions| - 1], eventLower)
        + (if Contains(Lower(a.actionType), eventLower) then a.value.GetOr(0) else 0)
  }

  /** The value one ad credits to a channel. */
  function ChannelValue(values: seq<InsightValue>, eventLower: string, c: Channel): real {
    if values == [] then 0.0
    else
      var v := values[|values| - 1];
      ChannelValue(values[..|values| - 1], eventLower, c)
        + (if ChannelOf(Lower(v.actionType), eventLower) == Some(c) then v.value.GetOr(0.0) else 0.0)
  }

  function TotalSpend(data: seq<AdData>): real {
    if data == [] then 0.0 else TotalSpend(data[..|data| - 1]) + data[|data| - 1].spend.GetOr(0.0)
  }

  function TotalConversions(data: seq<AdData>, eventLower: string): int {
    if data == [] then 0
    else TotalConversions(data[..|data| - 1], eventLower) + ActionConversions(data[|data| - 1].actions, eventLower)
  }

  function TotalChannelValue(data: seq<AdData>, eventLower: string, c: Channel): real {
    if data == [] then 0.0
    else TotalChannelValue(data[..|data| - 1], eventLower, c) + ChannelValue(data[|data| - 1].actionValues, eventLower, c)
  }

  /** What `parseMetaData(data, event)` returns. */
  function MetaStats(data: seq<AdData>, event: string): ParsedStats {
    var e := Lower(event);
    var spend := TotalSpend(data);
    var w, a, o := TotalChannelValue(data, e, Website), TotalChannelValue(data, e, InApp),
                   TotalChannelValue(data, e, Offline);
    var total := w + a + o;
    if spend > 0.0 then ParsedStats(spend, TotalConversions(data, e), w, a, o, w / spend, a / spend, o / spend, total, total / spend)
    else ParsedStats(spend, TotalConversions(data, e), w, a, o, 0.0, 0.0, 0.0, total, 0.0)
  }

  /** The inner loop over `actions`. */
  method CountConversions(actions: seq<InsightAction>, eventLower: string) returns (n: int)
    ensures n == ActionConversions(actions, eventLower)
  {
    n := 0;
    for i := 0 to |actions|
      invariant n == ActionConversions(actions[..i], eventLower)
    {
      var actionType := Lower(actions[i].actionType);
      if Contains(actionType, eventLower) {
        n := n + actions[i].value.GetOr(0);
      }
      assert actions[..i + 1][..i] == actions[..i];
    }
    assert actions[..|actions|] == actions;
  }

  /** The inner loop over `action_values`: each value goes to at most one channel. */
  method SplitValues(values: seq<InsightValue>, eventLower: string) returns (website: real, inapp: real, offline: real)
    ensures website == ChannelValue(values, eventLower, Website)
    ensures inapp == ChannelValue(values, eventLower, InApp)
    ensures offline == ChannelValue(values, eventLower, Offline)
  {
    website, inapp, offline := 0.0, 0.0, 0.0;
    for i := 0 to |values|
      invariant website == ChannelValue(values[..i], eventLower, Website)
      invariant inapp == ChannelValue(values[..i], eventLower, InApp)
      invariant offline == ChannelValue(values[..i], eventLower, Offline)
    {
      var actionType := Lower(values[i].actionType);
      var actionValue := values[i].value.GetOr(0.0);
      if Contains(actionType, "offsite_conversion") && Contains(actionType, eventLower) {
        website := website + actionValue;
      } else if Contains(actionType, "app_custom_event") && Contains(actionType, eventLower) {
        inapp := inapp + actionValue;
      } else if Contains(actionType, "offline_conversion") && Contains(actionType, eventLower) {
        offline := offline + actionValue;
      }
      assert values[..i + 1][..i] == values[..i];
    }
    assert values[..|values|] == values;
  }

  /** `parseMetaData`: the loop over the ads, then the totals and the ROAS fields. */
  method ParseMetaData(data: seq<AdData>, event: string) returns (stats: ParsedStats)
    ensures stats == MetaStats(data, event)
  {
    var eventLower := Lower(event);
    var spend, conversions := 0.0, 0;
    var website, inapp, offline := 0.0, 0.0, 0.0;
    for i := 0 to |data|
      invariant spend == TotalSpend(data[..i])
      invariant conversions == TotalConversions(data[..i], eventLower)
      invariant website == TotalChannelValue(data[..i], eventLower, Website)
      invariant inapp == TotalChannelValue(data[..i], eventLower, InApp)
      invariant offline == TotalChannelValue(data[..i], eventLower, Offline)
    {
      var ad := data[i];
      spend := spend + ad.spend.GetOr(0.0);
      var n := CountConversions(ad.actions, eventLower);
      conversions := conversions + n;
      var w, a, o := SplitValues(ad.actionValues, eventLower);
      website, inapp, offline := website + w, inapp + a, offline + o;
      assert data[..i + 1][..i] == data[..i];
    }
    assert data[..|data|] == data;
    var totalValue := website + inapp + offline;
    stats := ParsedStats(spend, conversions, website, inapp, offline, 0.0, 0.0, 0.0, totalValue, 0.0);
    if spend > 0.0 {
      stats := stats.(roas := totalValue / spend, websiteRoas := website / spend,
                      inappRoas := inapp / spend, offlineRoas := offline / spend);
    }
  }

  /** The ROAS fields: with positive spend each is its value per unit of spend and
      the total ROAS is the sum of the three channel ROAS; otherwise all stay 0. */
  lemma RoasSplit(data: seq<AdData>, event: string)
    ensures var s := MetaStats(data, event);
      s.totalValue == s.websiteValue + s.inappValue + s.offlineValue
      && (s.spend > 0.0 ==>
            s.roas * s.spend == s.totalValue && s.websiteRoas * s.spend == s.websiteValue
            && s.inappRoas * s.spend == s.inappValue && s.offlineRoas * s.spend == s.offlineValue
            && s.roas == s.websiteRoas + s.inappRoas + s.offlineRoas)
      && (s.spend <= 0.0 ==> s.roas == 0.0 && s.websiteRoas == 0.0 && s.inappRoas == 0.0 && s.offlineRoas == 0.0)
  {
    var s := MetaStats(data, event);
    if s.spend > 0.0 {
      assert (s.websiteValue + s.inappValue + s.offlineValue) / s.spend
        == s.websiteValue / s.spend + s.inappValue / s.spend + s.offlineValue / s.spend;
    }
  }

  /** A value credited to a channel is one the comprehensive route also matches,
      so for non-negative amounts the channel total never exceeds that route's
      matched value of the same entries. */
  lemma {:induction false} ChannelValueMatched(values: seq<InsightValue>, eventLower: string, c: Channel)
    requires forall i :: 0 <= i < |values| ==> values[i].value.GetOr(0.0) >= 0.0
    ensures ChannelValue(values, eventLower, c) <= MatchedValue(AsActionValues(values), eventLower)
  {
    if values != [] {
      var n := |values| - 1;
      ChannelValueMatched(values[..n], eventLower, c);
      assert AsActionValues(values)[..n] == AsActionValues(values[..n]);
    }
  }

  /** The same entries as the comprehensive route reads them. */
  function AsActionValues(values: seq<InsightValue>): (r: seq<ActionValue>)
    ensures |r| == |values|
    ensures forall i :: 0 <= i < |values| ==> r[i] == ActionValue(Some(values[i].actionType), values[i].value)
  {
    seq(|values|, i requires 0 <= i < |values| => ActionValue(Some(values[i].actionType), values[i].value))
  }

  /** The same actions as the comprehensive route reads them. */
  function AsActionCounts(actions: seq<InsightAction>): (r: seq<ActionCount>)
    ensures |r| == |actions|
    ensures forall i :: 0 <= i < |actions| ==> r[i] == ActionCount(Some(actions[i].actionType), actions[i].value)
  {
    seq(|actions|, i requires 0 <= i < |actions| => ActionCount(Some(actions[i].actionType), actions[i].value))
  }

  /** Both routes count the same conversions: this route's plain substring test
      agrees with the comprehensive route's matcher. */
  lemma {:induction false} ConversionsAgree(actions: seq<InsightAction>, eventLower: string)
    ensures ActionConversions(actions, eventLower) == MatchedConversions(AsActionCounts(actions), eventLower)
  {
    if actions != [] {
      var n := |actions| - 1;
      ConversionsAgree(actions[..n], eventLower);
      assert AsActionCounts(actions)[..n] == AsActionCounts(actions[..n]);
    }
  }

  /** A response of the insights endpoint: a page with its data and next link,
      a response that is not ok, or a request that fails before any response
      (the rejected `fetch`, whose error propagates unchanged). */
  datatype PageResponse =
    | OkPage(data: seq<AdData>, next: Option<string>)
    | NotOk(status: string, body: string)
    | NetworkFailure(message: string)

  /** How the loop ends: every collected row, or the error it throws. */
  datatype FetchOutcome = Got(data: seq<AdData>) | Threw(message: string)

  /** A response that ends the loop: an error, or a page without a next link. */
  predicate Stops(r: PageResponse) {
    !r.OkPage? || NextUrl(r.next).None?
  }

  /** The loop ends at some response: the endpoint does not follow next links forever. */
  predicate Ends(rs: seq<PageResponse>) {
    exists j :: 0 <= j < |rs| && Stops(rs[j])
  }

  /** The index of the response the loop stops at. */
  function FirstStop(rs: seq<PageResponse>): (j: nat)
    requires Ends(rs)
    ensures j < |rs| && Stops(rs[j]) && forall k :: 0 <= k < j ==> !Stops(rs[k])
  {
    FirstStopFrom(rs, 0)
  }

  function FirstStopFrom(rs: seq<PageResponse>, i: nat): (j: nat)
    requires exists j :: i <= j < |rs| && Stops(rs[j])
    decreases |rs| - i
    ensures i <= j < |rs| && Stops(rs[j]) && forall k :: i <= k < j ==> !Stops(rs[k])
  {
    if Stops(rs[i]) then i else FirstStopFrom(rs, i + 1)
  }

  /** The data of the first `n` responses, all pages, concatenated in order. */
  function Flatten(rs: seq<PageResponse>, n: nat): seq<AdData>
    requires n <= |rs| && forall k :: 0 <= k < n ==> rs[k].OkPage?
  {
    if n == 0 then [] else Flatten(rs, n - 1) + rs[n - 1].data
  }

  /** The result of the page loop: the error of the response it stops at, or the
      data of every page up to and including that one (empty pages too). */
  function FetchAll(rs: seq<PageResponse>): FetchOutcome
    requires Ends(rs)
  {
    var j := FirstStop(rs);
    match rs[j]
    case NotOk(status, body) => Threw(ThrownMessage(status, body))
    case NetworkFailure(m) => Threw(m)
    case OkPage(_, _) => Got(Flatten(rs, j + 1))
  }

  /** `fetchMetaAdsInsights`: `rs[k]` is the answer to the `k`-th request, and
      `urls` are the URLs requested, `None` standing for the base URL with the
      period's parameters. Every request is built as `base?query`; after a page
      the base is its next link and the parameters are emptied, and an empty
      parameter set serialises to "", so a next link is requested with a "?"
      appended. */
  method FetchMetaAdsInsights(rs: seq<PageResponse>) returns (outcome: FetchOutcome, urls: seq<Option<string>>)
    requires Ends(rs)
    ensures outcome == FetchAll(rs)
    ensures |urls| == FirstStop(rs) + 1
    ensures urls[0].None?
    ensures forall k :: 0 < k < |urls| ==> NextUrl(rs[k - 1].next).Some? && urls[k] == Some(rs[k - 1].next.value + "?")
  {
    var data: seq<AdData> := [];
    var baseUrl: Option<string> := None;
    var i := 0;
    urls := [];
    while true
      invariant i <= FirstStop(rs)
      invariant forall k :: 0 <= k < i ==> rs[k].OkPage?
      invariant data == Flatten(rs, i)
      invariant i == 0 ==> baseUrl.None?
      invariant i > 0 ==> baseUrl == rs[i - 1].next && baseUrl.Some?
      invariant |urls| == i && (i > 0 ==> urls[0].None?)
      invariant forall k :: 0 < k < i ==> NextUrl(rs[k - 1].next).Some? && urls[k] == Some(rs[k - 1].next.value + "?")
      decreases FirstStop(rs) - i
    {
      urls := urls + [if baseUrl.None? then None else Some(baseUrl.value + "?")];
      var response := rs[i];
      if response.NotOk? {
        return Threw(ThrownMessage(response.status, response.body)), urls;
      }
      if response.NetworkFailure? {
        return Threw(response.message), urls;
      }
      data := data + response.data;
      var nextPage := NextUrl(response.next);
      if nextPage.None? {
        break;
      }
      baseUrl := nextPage;
      i := i + 1;
    }
    outcome := Got(data);
  }

  /** A fetch that succeeds returns the rows of every page it received, in order
      and with empty pages included; a fetch that throws throws the error of the
      first request that was not answered with a page (the status and body of a
      response that is not ok, or the failed request's own error), and every page
      before it had a next link. */
  lemma FetchAllCases(rs: seq<PageResponse>)
    requires Ends(rs)
    ensures FetchAll(rs).Threw? <==>
      exists j :: 0 <= j < |rs| && !rs[j].OkPage? && forall k :: 0 <= k < j ==> rs[k].OkPage? && NextUrl(rs[k].next).Some?
    ensures FetchAll(rs).Got? ==>
      var j := FirstStop(rs);
      rs[j].OkPage? && NextUrl(rs[j].next).None? && FetchAll(rs).data == Flatten(rs, j + 1)
    ensures FetchAll(rs).Threw? ==>
      var j := FirstStop(rs);
      (rs[j].NotOk? && FetchAll(rs).message == ThrownMessage(rs[j].status, rs[j].body))
      || (rs[j].NetworkFailure? && FetchAll(rs).message == rs[j].message)
  {
    var j := FirstStop(rs);
    assert forall k :: 0 <= k < j ==> rs[k].OkPage? && NextUrl(rs[k].next).Some?;
    if exists j' :: 0 <= j' < |rs| && !rs[j'].OkPage? && forall k :: 0 <= k < j' ==> rs[k].OkPage? && NextUrl(rs[k].next).Some? {
      var j' :| 0 <= j' < |rs| && !rs[j'].OkPage? && forall k :: 0 <= k < j' ==> rs[k].OkPage? && NextUrl(rs[k].next).Some?;
      assert Stops(rs[j']);
      assert j' == j;
    }
  }

  /** Empty pages do not stop the loop: a page with no rows but a next link is
      followed like any other. */
  lemma EmptyPageFollowed(tail: seq<PageResponse>, link: string)
    requires Ends(tail) && link != ""
    ensures Ends([OkPage([], Some(link))] + tail)
    ensures FetchAll([OkPage([], Some(link))] + tail) == FetchAll(tail)
  {
    var rs := [OkPage([], Some(link))] + tail;
    var j := FirstStop(tail);
    assert Stops(rs[j + 1]);
    assert FirstStop(rs) == j + 1 by {
      assert !Stops(rs[0]);
      assert forall k :: 1 <= k < j + 1 ==> rs[k] == tail[k - 1];
    }
    if tail[j].OkPage? {
      FlattenShift(tail, link, j + 1);
    }
  }

  lemma {:induction false} FlattenShift(tail: seq<PageResponse>, link: string, n: nat)
    requires n <= |tail| && forall k :: 0 <= k < n ==> tail[k].OkPage?
    ensures var rs := [OkPage([], Some(link))] + tail;
      Flatten(rs, n + 1) == Flatten(tail, n)
  {
    var rs := [OkPage([], Some(link))] + tail;
    assert forall k :: 1 <= k < n + 1 ==> rs[k] == tail[k - 1];
    if n == 0 {
      assert Flatten(rs, 1) == Flatten(rs, 0) + [];
    } else {
      FlattenShift(tail, link, n - 1);
      assert Flatten(rs, n + 1) == Flatten(rs, n) + rs[n].data;
      assert Flatten(tail, n) == Flatten(tail, n - 1) + tail[n - 1].data;
    }
  }
}
