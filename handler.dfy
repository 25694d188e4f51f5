/** The `POST` handler of the comprehensive-insights route: it checks its
    parameters, takes the fetched records of both periods for every level and
    breakdown, parses each data set and assembles the report. The fetches
    themselves are inputs here: each is the result `FetchComprehensiveInsights`
    ends with. */
module Handler {
  import opened Basics
  import opened Records
  import opened Retry
  import opened Aggregation
  import opened Report

  /** The records of both periods. */
  datatype Periods = Periods(pre: seq<Record>, post: seq<Record>)

  const NoPeriods: Periods := Periods([], [])

  /** The two fetches of a `Promise.all` over the pre and post periods, and
      whether the pre-period fetch settles first when both reject (the order in
      which the requests finish, which the handler cannot choose). */
  datatype FetchPair = FetchPair(pre: FetchResult, post: FetchResult, preRejectsFirst: bool)

  /** The fetches the handler awaits: the ad level, the campaign and ad-set
      levels, and the placement, country and device breakdowns of the ad level. */
  datatype Fetches = Fetches(ads: FetchPair, campaigns: FetchPair, adSets: FetchPair,
                             placements: FetchPair, countries: FetchPair, devices: FetchPair)

  /** The JSON response: the report, or an error body with its HTTP status. */
  datatype Response = Ok(report: Report) | Error(status: int, message: string)

  /** What `Promise.all` over a pair resolves to: both record lists, or nothing when
      either fetch rejects. */
  function Settled(p: FetchPair): (r: Option<Periods>)
    ensures r.Some? <==> p.pre.Fetched? && p.post.Fetched?
    ensures r.Some? ==> r.value == Periods(p.pre.data, p.post.data)
  {
    if p.pre.Fetched? && p.post.Fetched? then Some(Periods(p.pre.data, p.post.data)) else None
  }

  /** The error a rejected pair carries: that of the fetch that rejects first. */
  function Rejection(p: FetchPair): (m: string)
    ensures p.pre.Failed? && !p.post.Failed? ==> m == p.pre.message
    ensures p.post.Failed? && !p.pre.Failed? ==> m == p.post.message
    ensures p.pre.Failed? && p.post.Failed? ==> m == (if p.preRejectsFirst then p.pre.message else p.post.message)
  {
    if p.pre.Failed? && (p.preRejectsFirst || !p.post.Failed?) then p.pre.message
    else if p.post.Failed? then p.post.message
    else ""
  }

  /** The statistics of every data set; the age-gender pair is parsed from
      empty lists because that breakdown is never fetched. */
  function StatsOf(eventName: string, ads: Periods, campaigns: Periods, adSets: Periods,
                   placements: Periods, countries: Periods, devices: Periods): (s: AllStats)
    ensures PreMapsWellFormed(s)
  {
    AggregateWellFormed(ads.pre, eventName);
    AggregateWellFormed(campaigns.pre, eventName);
    AggregateWellFormed(adSets.pre, eventName);
    AggregateWellFormed(placements.pre, eventName);
    AggregateWellFormed([], eventName);
    AggregateWellFormed(countries.pre, eventName);
    AggregateWellFormed(devices.pre, eventName);
    AllStats(
      StatsPair(Aggregate(ads.pre, eventName), Aggregate(ads.post, eventName)),
      StatsPair(Aggregate(campaigns.pre, eventName), Aggregate(campaigns.post, eventName)),
      StatsPair(Aggregate(adSets.pre, eventName), Aggregate(adSets.post, eventName)),
      StatsPair(Aggregate(placements.pre, eventName), Aggregate(placements.post, eventName)),
      StatsPair(Aggregate([], eventName), Aggregate([], eventName)),
      StatsPair(Aggregate(countries.pre, eventName), Aggregate(countries.post, eventName)),
      StatsPair(Aggregate(devices.pre, eventName), Aggregate(devices.post, eventName)))
  }

  /** The handler in closed form. Missing parameters give 400. A rejected
      ad-level fetch gives 500 with its message. A rejected campaign fetch leaves
      the campaign and ad-set data empty; a rejected ad-set, placement, country or
      device fetch leaves only its own data empty. */
  function Respond(accessToken: string, accountId: string, eventName: string, f: Fetches): Response {
    if accessToken == "" || accountId == "" || eventName == "" then Error(400, "Missing required parameters")
    else
      match Settled(f.ads)
      case None => Error(500, Rejection(f.ads))
      case Some(ads) =>
        var campaigns := Settled(f.campaigns).GetOr(NoPeriods);
        var adSets := if Settled(f.campaigns).Some? then Settled(f.adSets).GetOr(NoPeriods) else NoPeriods;
        var placements := Settled(f.placements).GetOr(NoPeriods);
        var countries := Settled(f.countries).GetOr(NoPeriods);
        var devices := Settled(f.devices).GetOr(NoPeriods);
        Ok(AssembleReport(StatsOf(eventName, ads, campaigns, adSets, placements, countries, devices)))
  }

  /** `POST`: validate, await the fetches, parse the fourteen data sets and
      build the report. */
  method Post(accessToken: string, accountId: string, eventName: string, f: Fetches) returns (response: Response)
    ensures response == Respond(accessToken, accountId, eventName, f)
  {
    if accessToken == "" || accountId == "" || eventName == "" {
      return Error(400, "Missing required parameters");
    }
    var adData := Settled(f.ads);
    if adData.None? {
      return Error(500, Rejection(f.ads));
    }
    var ads := adData.value;
    var campaigns, adSets := NoPeriods, NoPeriods;
    var campaignData := Settled(f.campaigns);
    if campaignData.Some? {
      campaigns := campaignData.value;
      adSets := Settled(f.adSets).GetOr(NoPeriods);
    }
    var placements := Settled(f.placements).GetOr(NoPeriods);
    var countries := Settled(f.countries).GetOr(NoPeriods);
    var devices := Settled(f.devices).GetOr(NoPeriods);

    var preStats := ParseComprehensiveData(ads.pre, eventName);
    var postStats := ParseComprehensiveData(ads.post, eventName);
    var prePlacementStats := ParseComprehensiveData(placements.pre, eventName);
    var postPlacementStats := ParseComprehensiveData(placements.post, eventName);
    var preAgeGenderStats := ParseComprehensiveData([], eventName);
    var postAgeGenderStats := ParseComprehensiveData([], eventName);
    var preCountryStats := ParseComprehensiveData(countries.pre, eventName);
    var postCountryStats := ParseComprehensiveData(countries.post, eventName);
    var preDeviceStats := ParseComprehensiveData(devices.pre, eventName);
    var postDeviceStats := ParseComprehensiveData(devices.post, eventName);
    var preCampaignStats := ParseComprehensiveData(campaigns.pre, eventName);
    var postCampaignStats := ParseComprehensiveData(campaigns.post, eventName);
    var preAdSetStats := ParseComprehensiveData(adSets.pre, eventName);
    var postAdSetStats := ParseComprehensiveData(adSets.post, eventName);

    var stats := AllStats(
      StatsPair(preStats, postStats), StatsPair(preCampaignStats, postCampaignStats),
      StatsPair(preAdSetStats, postAdSetStats), StatsPair(prePlacementStats, postPlacementStats),
      StatsPair(preAgeGenderStats, postAgeGenderStats), StatsPair(preCountryStats, postCountryStats),
      StatsPair(preDeviceStats, postDeviceStats));
    assert stats == StatsOf(eventName, ads, campaigns, adSets, placements, countries, devices);
    response := Ok(AssembleReport(stats));
  }

  /** Any missing parameter is answered with 400 before anything is fetched. */
  lemma MissingParameters(accessToken: string, accountId: string, eventName: string, f: Fetches)
    ensures Respond(accessToken, accountId, eventName, f).Error? && Respond(accessToken, accountId, eventName, f).status == 400
        <==> accessToken == "" || accountId == "" || eventName == ""
  {
  }

  /** With the parameters present, the handler fails exactly when an ad-level
      fetch failed, with status 500 and the error of the fetch that rejected first. */
  lemma AdFetchFailure(accessToken: string, accountId: string, eventName: string, f: Fetches)
    requires accessToken != "" && accountId != "" && eventName != ""
    ensures Respond(accessToken, accountId, eventName, f).Error? <==> f.ads.pre.Failed? || f.ads.post.Failed?
    ensures f.ads.pre.Failed? && (f.ads.post.Fetched? || f.ads.preRejectsFirst) ==>
      Respond(accessToken, accountId, eventName, f) == Error(500, f.ads.pre.message)
    ensures f.ads.post.Failed? && (f.ads.pre.Fetched? || !f.ads.preRejectsFirst) ==>
      Respond(accessToken, accountId, eventName, f) == Error(500, f.ads.post.message)
  {
  }

  /** The optional data sets degrade to empty lists: a failed campaign fetch
      empties both the campaign and the ad-set rows, a failed placement, country
      or device fetch empties its rows, and the age-gender rows are always empty. */
  lemma OptionalFetchesDegrade(accessToken: string, accountId: string, eventName: string, f: Fetches)
    requires Respond(accessToken, accountId, eventName, f).Ok?
    ensures var r := Respond(accessToken, accountId, eventName, f).report;
      r.ageGender == []
      && (Settled(f.campaigns).None? ==> r.campaigns == [] && r.adSets == [])
      && (Settled(f.adSets).None? ==> r.adSets == [])
      && (Settled(f.placements).None? ==> r.placements == [])
      && (Settled(f.countries).None? ==> r.geographic == [])
      && (Settled(f.devices).None? ==> r.devices == [])
  {
  }

  /** End to end: every top-ad row of a successful response names an ad of the
      pre period, and carries the spend and conversions summed over exactly the
      pre-period and post-period ad-level records of that ad. */
  lemma TopAdsFromRecords(accessToken: string, accountId: string, eventName: string, f: Fetches)
    requires Respond(accessToken, accountId, eventName, f).Ok?
    ensures var t := Respond(accessToken, accountId, eventName, f).report.topAds;
      var e := Lower(eventName);
      |t| <= 15 && DistinctNames(t)
      && forall i :: 0 <= i < |t| ==> IsGroupRow(t[i], Rows(f.ads.pre.data, e), Rows(f.ads.post.data, e), Ad)
  {
    var e := Lower(eventName);
    TopRowsAreSums(Rows(f.ads.pre.data, e), Rows(f.ads.post.data, e), Ad, false, 15);
  }
}
