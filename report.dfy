/** The pure report assembly of the comprehensive-insights route: derived
    metrics, summary totals, and the pre/post joins of the breakdown maps with
    their sort and top-N cut. */
module Report {
  import opened Basics
  import opened Records
  import opened Aggregation

  /** The derived metrics `calculateMetrics` computes for one period. */
  datatype Metrics = Metrics(ctr: real, cpc: real, cpm: real, roas: real, costPerConversion: real,
                             conversionRate: real)

  /** `calculateMetrics`: every ratio is taken only when its denominator is
      positive, and is 0 otherwise. */
  function CalculateMetrics(s: Tally): (m: Metrics)
    ensures s.impressions > 0 ==> m.ctr * s.impressions as real == s.clicks as real * 100.0
    ensures s.clicks > 0 ==> m.cpc * s.clicks as real == s.spend
    ensures s.impressions > 0 ==> m.cpm * s.impressions as real == s.spend * 1000.0
    ensures s.spend > 0.0 ==> m.roas * s.spend == s.value
    ensures s.conversions > 0 ==> m.costPerConversion * s.conversions as real == s.spend
    ensures s.clicks > 0 ==> m.conversionRate * s.clicks as real == s.conversions as real * 100.0
    ensures s.impressions <= 0 ==> m.ctr == 0.0 && m.cpm == 0.0
    ensures s.clicks <= 0 ==> m.cpc == 0.0 && m.conversionRate == 0.0
    ensures s.spend <= 0.0 ==> m.roas == 0.0
    ensures s.conversions <= 0 ==> m.costPerConversion == 0.0
  {
    Metrics(
      GuardedRatio(s.clicks as real, s.impressions as real) * 100.0,
      GuardedRatio(s.spend, s.clicks as real),
      GuardedRatio(s.spend, s.impressions as real) * 1000.0,
      GuardedRatio(s.value, s.spend),
      GuardedRatio(s.spend, s.conversions as real),
      GuardedRatio(s.conversions as real, s.clicks as real) * 100.0)
  }

  /** The Meta ACR of the summary: post-period conversions per click, in percent,
      when both are positive. */
  function MetaACR(post: Tally): real {
    if post.conversions > 0 && post.clicks > 0 then GuardedRatio(post.conversions as real, post.clicks as real) * 100.0
    else 0.0
  }

  /** The extra `conversions > 0` guard of the Meta ACR changes nothing for
      non-negative counts: it is the post period's conversion rate. */
  lemma MetaACRIsPostConversionRate(post: Tally)
    requires post.conversions >= 0
    ensures MetaACR(post) == CalculateMetrics(post).conversionRate
  {
  }

  /** The `summaryTotals` object of the report. */
  datatype SummaryTotals = SummaryTotals(
    preSpend: real, postSpend: real,
    preConversions: int, postConversions: int,
    preConversionValue: real, postConversionValue: real,
    preImpressions: int, postImpressions: int,
    preClicks: int, postClicks: int,
    metaACR: real)

  function SummaryTotalsOf(pre: Tally, post: Tally): (s: SummaryTotals)
    ensures s.metaACR == 0.0 <==> post.conversions <= 0 || post.clicks <= 0
    ensures s.metaACR != 0.0 ==> s.metaACR * post.clicks as real == post.conversions as real * 100.0
  {
    SummaryTotals(pre.spend, post.spend, pre.conversions, post.conversions, pre.value, post.value,
                  pre.impressions, post.impressions, pre.clicks, post.clicks, MetaACR(post))
  }

  /** The `overview` object: the ad-level totals and metrics of both periods. */
  datatype Overview = Overview(
    preSpend: real, postSpend: real,
    preImpressions: int, postImpressions: int,
    preClicks: int, postClicks: int,
    preConversions: int, postConversions: int,
    preCtr: real, postCtr: real,
    preCpc: real, postCpc: real,
    preCpm: real, postCpm: real,
    preRoas: real, postRoas: real,
    preCostPerConversion: real, postCostPerConversion: real,
    preConversionRate: real, postConversionRate: real)

  function OverviewOf(pre: Tally, post: Tally): Overview {
    var a, b := CalculateMetrics(pre), CalculateMetrics(post);
    Overview(pre.spend, post.spend, pre.impressions, post.impressions, pre.clicks, post.clicks,
             pre.conversions, post.conversions, a.ctr, b.ctr, a.cpc, b.cpc, a.cpm, b.cpm,
             a.roas, b.roas, a.costPerConversion, b.costPerConversion, a.conversionRate, b.conversionRate)
  }

  /** The overview's metrics of each period depend on that period alone. */
  lemma OverviewPeriodsIndependent(pre: Tally, post: Tally, post2: Tally)
    ensures var o, o2 := OverviewOf(pre, post), OverviewOf(pre, post2);
      o.preCtr == o2.preCtr && o.preCpc == o2.preCpc && o.preCpm == o2.preCpm && o.preRoas == o2.preRoas
      && o.preCostPerConversion == o2.preCostPerConversion && o.preConversionRate == o2.preConversionRate
  {
  }

  /** A pre-period group next to its post-period counterpart. */
  datatype Joined = Joined(key: string, first: Record, pre: Tally, post: Tally)

  /** `postMap.get(name) || { spend: 0, … }`: a missing post side reads as zeros. */
  function PostOrZero(post: GroupMap, k: string): Tally {
    if k in post.entries then post.entries[k].tally else Zero
  }

  /** The `Array.from(preMap.values()).map(…)` join: one row per pre-period key,
      in insertion order. */
  function LeftJoin(pre: GroupMap, post: GroupMap): (js: seq<Joined>)
    requires forall k :: k in pre.keys ==> k in pre.entries
    ensures |js| == |pre.keys|
    ensures forall i :: 0 <= i < |js| ==> js[i].key == pre.keys[i]
  {
    seq(|pre.keys|, i requires 0 <= i < |pre.keys| =>
      var k := pre.keys[i];
      Joined(k, pre.entries[k].first, pre.entries[k].tally, PostOrZero(post, k)))
  }

  /** The keys of the join are exactly the pre-period keys, each once; a key
      only the post period has never appears; each row carries its pre-period
      group, and the post-period group of the same key or zeros. */
  lemma LeftJoinKeys(pre: GroupMap, post: GroupMap)
    requires WellFormed(pre)
    ensures var js := LeftJoin(pre, post);
      (forall k :: (exists i :: 0 <= i < |js| && js[i].key == k) <==> k in pre.entries)
      && (forall i, j :: 0 <= i < j < |js| ==> js[i].key != js[j].key)
      && (forall i :: 0 <= i < |js| ==>
            (js[i].key in pre.entries
             && js[i].pre == pre.entries[js[i].key].tally && js[i].first == pre.entries[js[i].key].first
             && js[i].post == (if js[i].key in post.entries then post.entries[js[i].key].tally else Zero)))
  {
    var js := LeftJoin(pre, post);
    forall k | k in pre.entries
      ensures exists i :: 0 <= i < |js| && js[i].key == k
    {
      var i :| 0 <= i < |pre.keys| && pre.keys[i] == k;
      assert js[i].key == k;
    }
  }

  /** A JavaScript division whose result is not finite (a zero divisor) and
      which the JSON response therefore carries as `null`: `None`. */
  function Divide(n: real, d: real): (r: Option<real>)
    ensures r.Some? <==> d != 0.0
    ensures r.Some? ==> r.value * d == n
  {
    if d == 0.0 then None else Some(n / d)
  }

  /** A row of `campaigns`, `adSets` or `topAds`. `postRoas` is `None` where the
      route divides by a zero post-period spend. */
  datatype PerformanceRow = PerformanceRow(
    name: string, preSpend: real, postSpend: real, preConversions: int, postConversions: int,
    preRoas: real, postRoas: Option<real>)

  /** The row of a joined group. The ad-set rows guard their post ROAS with the
      PRE-period spend (`guardByPre`), so they divide by the post spend even when
      it is 0; campaign and ad rows guard with the post spend. */
  function PerformanceRowOf(j: Joined, guardByPre: bool): PerformanceRow {
    var postRoas :=
      if guardByPre then (if j.pre.spend > 0.0 then Divide(j.post.value, j.post.spend) else Some(0.0))
      else Some(GuardedRatio(j.post.value, j.post.spend));
    PerformanceRow(j.key, j.pre.spend, j.post.spend, j.pre.conversions, j.post.conversions,
                   GuardedRatio(j.pre.value, j.pre.spend), postRoas)
  }

  function PerformanceRows(js: seq<Joined>, guardByPre: bool): (rows: seq<PerformanceRow>)
    ensures |rows| == |js|
    ensures forall i :: 0 <= i < |js| ==> rows[i] == PerformanceRowOf(js[i], guardByPre)
  {
    seq(|js|, i requires 0 <= i < |js| => PerformanceRowOf(js[i], guardByPre))
  }

  /** The post ROAS of a campaign or ad row is always a number; an ad-set row
      whose pre-period spend is positive but which has no post-period spend
      (in particular, one missing from the post period) gets `null`. */
  lemma PostRoasNull(j: Joined)
    ensures PerformanceRowOf(j, false).postRoas.Some?
    ensures PerformanceRowOf(j, true).postRoas.None? <==> j.pre.spend > 0.0 && j.post.spend == 0.0
  {
  }

  /** The sort key: spend over both periods. */
  function Total(r: PerformanceRow): real {
    r.preSpend + r.postSpend
  }

  ghost predicate SortedByTotal(s: seq<PerformanceRow>) {
    forall i, j :: 0 <= i < j < |s| ==> Total(s[i]) >= Total(s[j])
  }

  /** Insert a row after every row with at least its total, so that rows of
      equal total keep their order. */
  function Insert(s: seq<PerformanceRow>, x: PerformanceRow): (r: seq<PerformanceRow>)
    ensures multiset(r) == multiset(s) + multiset{x}
  {
    if s == [] then [x]
    else if Total(s[0]) < Total(x) then [x] + s
    else
      assert s == [s[0]] + s[1..];
      [s[0]] + Insert(s[1..], x)
  }

  /** `.sort((a, b) => b.preSpend + b.postSpend - (a.preSpend + a.postSpend))`:
      a stable insertion sort by descending total. */
  function SortByTotal(s: seq<PerformanceRow>): (r: seq<PerformanceRow>)
    ensures multiset(r) == multiset(s)
  {
    if s == [] then []
    else
      assert s == s[..|s| - 1] + [s[|s| - 1]];
      Insert(SortByTotal(s[..|s| - 1]), s[|s| - 1])
  }

  lemma {:induction false} InsertSorted(s: seq<PerformanceRow>, x: PerformanceRow)
    requires SortedByTotal(s)
    ensures SortedByTotal(Insert(s, x))
  {
    if s != [] && Total(s[0]) >= Total(x) {
      var rest := Insert(s[1..], x);
      InsertSorted(s[1..], x);
      forall k | 0 <= k < |rest|
        ensures Total(s[0]) >= Total(rest[k])
      {
        assert rest[k] in multiset(rest);
        assert rest[k] in multiset(s[1..]) || rest[k] == x;
        if rest[k] != x {
          var m :| 0 <= m < |s[1..]| && s[1..][m] == rest[k];
          assert s[m + 1] == rest[k];
        }
      }
      var r := [s[0]] + rest;
      forall i, j | 0 <= i < j < |r|
        ensures Total(r[i]) >= Total(r[j])
      {
        if i > 0 {
          assert r[i] == rest[i - 1] && r[j] == rest[j - 1];
        } else {
          assert r[j] == rest[j - 1];
        }
      }
    }
  }

  /** The sort orders the rows by descending total and keeps every row. */
  lemma {:induction false} SortByTotalSorted(s: seq<PerformanceRow>)
    ensures SortedByTotal(SortByTotal(s))
    ensures multiset(SortByTotal(s)) == multiset(s) && |SortByTotal(s)| == |s|
  {
    if s != [] {
      SortByTotalSorted(s[..|s| - 1]);
      InsertSorted(SortByTotal(s[..|s| - 1]), s[|s| - 1]);
    }
    assert |multiset(SortByTotal(s))| == |multiset(s)|;
  }

  /** `.sort(…).slice(0, n)`: the `n` rows of largest total. */
  function Top(rows: seq<PerformanceRow>, n: nat): (t: seq<PerformanceRow>)
    ensures |t| <= n && |t| <= |rows|
  {
    var s := SortByTotal(rows);
    SortByTotalSorted(rows);
    if |s| <= n then s else s[..n]
  }

  /** The cut keeps `min(n, |rows|)` rows, sorted, each one of the input rows, and
      no row it drops has a larger total than a row it keeps. */
  lemma TopKeepsLargest(rows: seq<PerformanceRow>, n: nat)
    ensures var t := Top(rows, n);
      |t| == (if |rows| <= n then |rows| else n)
      && SortedByTotal(t)
      && multiset(t) <= multiset(rows)
      && forall x, i :: x in multiset(rows) - multiset(t) && 0 <= i < |t| ==> Total(t[i]) >= Total(x)
  {
    var s := SortByTotal(rows);
    SortByTotalSorted(rows);
    var m := if |rows| <= n then |rows| else n;
    assert Top(rows, n) == s[..m];
    CutOfSorted(s, m);
  }

  /** A prefix of a list sorted by descending total is sorted, is part of the
      list, and has at least the total of every row left out. */
  lemma CutOfSorted(s: seq<PerformanceRow>, m: nat)
    requires SortedByTotal(s) && m <= |s|
    ensures SortedByTotal(s[..m])
    ensures multiset(s[..m]) <= multiset(s)
    ensures forall x, i :: x in multiset(s) - multiset(s[..m]) && 0 <= i < m ==> Total(s[..m][i]) >= Total(x)
  {
    assert s == s[..m] + s[m..];
    assert multiset(s) == multiset(s[..m]) + multiset(s[m..]);
    forall x, i | x in multiset(s) - multiset(s[..m]) && 0 <= i < m
      ensures Total(s[..m][i]) >= Total(x)
    {
      assert x in multiset(s[m..]);
      var j :| 0 <= j < |s[m..]| && s[m..][j] == x;
      assert s[m + j] == x;
    }
  }

  /** Rows whose names are pairwise different. */
  ghost predicate DistinctNames(s: seq<PerformanceRow>) {
    forall i, j :: 0 <= i < j < |s| ==> s[i].name != s[j].name
  }

  /** With distinct names, every row occurs once. */
  lemma {:induction false} DistinctNamesOnce(s: seq<PerformanceRow>, x: PerformanceRow)
    requires DistinctNames(s)
    ensures multiset(s)[x] <= 1
  {
    if s != [] {
      var p := s[..|s| - 1];
      DistinctNamesOnce(p, x);
      assert s == p + [s[|s| - 1]];
    }
  }

  /** Taking some of the rows, in any order, keeps the names distinct. */
  lemma DistinctNamesSub(a: seq<PerformanceRow>, b: seq<PerformanceRow>)
    requires DistinctNames(a) && multiset(b) <= multiset(a)
    ensures DistinctNames(b)
  {
    forall i, j | 0 <= i < j < |b|
      ensures b[i].name != b[j].name
    {
      if b[i] == b[j] {
        assert b == b[..j] + [b[j]] + b[j + 1..];
        assert b[i] in multiset(b[..j]) by { assert b[..j][i] == b[i]; }
        assert multiset(b)[b[j]] >= 2;
        DistinctNamesOnce(a, b[j]);
      } else {
        assert b[i] in multiset(b) && b[j] in multiset(b);
        var p :| 0 <= p < |a| && a[p] == b[i];
        var q :| 0 <= q < |a| && a[q] == b[j];
      }
    }
  }

  /** A row of `audience.ageGender`. */
  datatype SegmentRow = SegmentRow(age: string, gender: string, preSpend: real, postSpend: real,
                                   preConversions: int, postConversions: int)

  /** A row of `placements`. */
  datatype PlacementRow = PlacementRow(name: string, preSpend: real, postSpend: real,
                                       preImpressions: int, postImpressions: int,
                                       preConversions: int, postConversions: int)

  /** A row of `geographic`; the region is that of the first pre-period record of the country. */
  datatype CountryRow = CountryRow(country: string, region: Option<string>, preSpend: real, postSpend: real,
                                   preConversions: int, postConversions: int)

  /** A row of `devices`. */
  datatype DeviceRow = DeviceRow(platform: string, preSpend: real, postSpend: real,
                                 preConversions: int, postConversions: int)

  function SegmentRows(js: seq<Joined>): (rows: seq<SegmentRow>)
    ensures |rows| == |js|
  {
    seq(|js|, i requires 0 <= i < |js| =>
      SegmentRow(js[i].first.age, js[i].first.gender, js[i].pre.spend, js[i].post.spend,
                 js[i].pre.conversions, js[i].post.conversions))
  }

  function PlacementRows(js: seq<Joined>): (rows: seq<PlacementRow>)
    ensures |rows| == |js|
    ensures forall i :: 0 <= i < |js| ==> rows[i].name == js[i].key
  {
    seq(|js|, i requires 0 <= i < |js| =>
      PlacementRow(js[i].key, js[i].pre.spend, js[i].post.spend, js[i].pre.impressions, js[i].post.impressions,
                   js[i].pre.conversions, js[i].post.conversions))
  }

  function CountryRows(js: seq<Joined>): (rows: seq<CountryRow>)
    ensures |rows| == |js|
    ensures forall i :: 0 <= i < |js| ==> rows[i].country == js[i].key
  {
    seq(|js|, i requires 0 <= i < |js| =>
      CountryRow(js[i].key, js[i].first.region, js[i].pre.spend, js[i].post.spend,
                 js[i].pre.conversions, js[i].post.conversions))
  }

  function DeviceRows(js: seq<Joined>): (rows: seq<DeviceRow>)
    ensures |rows| == |js|
    ensures forall i :: 0 <= i < |js| ==> rows[i].platform == js[i].key
  {
    seq(|js|, i requires 0 <= i < |js| =>
      DeviceRow(js[i].key, js[i].pre.spend, js[i].post.spend, js[i].pre.conversions, js[i].post.conversions))
  }

  /** The statistics of one request for both periods. */
  datatype StatsPair = StatsPair(pre: PeriodStats, post: PeriodStats)

  /** The fourteen parsed data sets the report reads: ad level, campaign level,
      ad-set level, and the placement, age-gender, country and device breakdowns. */
  datatype AllStats = AllStats(ads: StatsPair, campaigns: StatsPair, adSets: StatsPair,
                               placements: StatsPair, ageGender: StatsPair, countries: StatsPair,
                               devices: StatsPair)

  /** Every pre-period map the report iterates lists only keys of its table. */
  ghost predicate PreMapsWellFormed(s: AllStats) {
    WellFormed(s.campaigns.pre.campaigns) && WellFormed(s.adSets.pre.adSets) && WellFormed(s.ads.pre.ads)
    && WellFormed(s.ageGender.pre.ageGender) && WellFormed(s.placements.pre.placements)
    && WellFormed(s.countries.pre.countries) && WellFormed(s.devices.pre.devices)
  }

  /** The report of the route (its always-empty `interests`, `hourly` and `daily`
      arrays are not represented). */
  datatype Report = Report(
    summaryTotals: SummaryTotals,
    overview: Overview,
    campaigns: seq<PerformanceRow>,
    adSets: seq<PerformanceRow>,
    topAds: seq<PerformanceRow>,
    ageGender: seq<SegmentRow>,
    placements: seq<PlacementRow>,
    geographic: seq<CountryRow>,
    devices: seq<DeviceRow>)

  function AssembleReport(s: AllStats): Report
    requires PreMapsWellFormed(s)
  {
    Report(
      SummaryTotalsOf(s.ads.pre.totals, s.ads.post.totals),
      OverviewOf(s.ads.pre.totals, s.ads.post.totals),
      Top(PerformanceRows(LeftJoin(s.campaigns.pre.campaigns, s.campaigns.post.campaigns), false), 20),
      Top(PerformanceRows(LeftJoin(s.adSets.pre.adSets, s.adSets.post.adSets), true), 20),
      Top(PerformanceRows(LeftJoin(s.ads.pre.ads, s.ads.post.ads), false), 15),
      SegmentRows(LeftJoin(s.ageGender.pre.ageGender, s.ageGender.post.ageGender)),
      PlacementRows(LeftJoin(s.placements.pre.placements, s.placements.post.placements)),
      CountryRows(LeftJoin(s.countries.pre.countries, s.countries.post.countries)),
      DeviceRows(LeftJoin(s.devices.pre.devices, s.devices.post.devices)))
  }
  /** The joined sums of a breakdown: each row's pre-period amounts are the
      contributions of exactly the pre-period records carrying its key, and its
      post-period amounts those of the post-period records with that key (zeros
      when there are none). */
  lemma JoinedSums(preRows: seq<Row>, postRows: seq<Row>, d: Dimension)
    ensures WellFormed(GroupBy(preRows, d))
    ensures var js := LeftJoin(GroupBy(preRows, d), GroupBy(postRows, d));
      forall i :: 0 <= i < |js| ==>
        js[i].key != "" && Select(preRows, d, js[i].key) != []
        && js[i].pre == SumContributions(Select(preRows, d, js[i].key), d)
        && js[i].post == SumContributions(Select(postRows, d, js[i].key), d)
  {
    var pre, post := GroupBy(preRows, d), GroupBy(postRows, d);
    GroupByWellFormed(preRows, d);
    LeftJoinKeys(pre, post);
    var js := LeftJoin(pre, post);
    forall i | 0 <= i < |js|
      ensures js[i].key != "" && Select(preRows, d, js[i].key) != []
      ensures js[i].pre == SumContributions(Select(preRows, d, js[i].key), d)
      ensures js[i].post == SumContributions(Select(postRows, d, js[i].key), d)
    {
      var k := js[i].key;
      GroupByKeys(preRows, d, k);
      SelectMembers(preRows, d, k);
      GroupByTally(preRows, d, k);
      if k in post.entries {
        GroupByTally(postRows, d, k);
      } else {
        GroupByKeys(postRows, d, k);
        SelectMembers(postRows, d, k);
      }
    }
  }

  /** A performance row that is the row of a group: a non-empty pre-period key,
      with the pre and post sums of exactly the records carrying that key. */
  ghost predicate IsGroupRow(r: PerformanceRow, preRows: seq<Row>, postRows: seq<Row>, d: Dimension) {
    var a, b := SumContributions(Select(preRows, d, r.name), d), SumContributions(Select(postRows, d, r.name), d);
    r.name != "" && Select(preRows, d, r.name) != []
    && r.preSpend == a.spend && r.postSpend == b.spend
    && r.preConversions == a.conversions && r.postConversions == b.conversions
  }

  lemma PerformanceRowsAreSums(preRows: seq<Row>, postRows: seq<Row>, d: Dimension, guardByPre: bool)
    ensures WellFormed(GroupBy(preRows, d))
    ensures var rows := PerformanceRows(LeftJoin(GroupBy(preRows, d), GroupBy(postRows, d)), guardByPre);
      DistinctNames(rows) && forall p :: 0 <= p < |rows| ==> IsGroupRow(rows[p], preRows, postRows, d)
  {
    GroupByWellFormed(preRows, d);
    LeftJoinKeys(GroupBy(preRows, d), GroupBy(postRows, d));
    JoinedSums(preRows, postRows, d);
  }

  /** Every placement row carries the spend, impressions and conversions summed
      over exactly the pre-period and post-period records of its placement. */
  lemma PlacementRowsAreSums(preRows: seq<Row>, postRows: seq<Row>)
    ensures WellFormed(GroupBy(preRows, Placement))
    ensures var rows := PlacementRows(LeftJoin(GroupBy(preRows, Placement), GroupBy(postRows, Placement)));
      forall i :: 0 <= i < |rows| ==>
        var a, b := SumContributions(Select(preRows, Placement, rows[i].name), Placement),
                    SumContributions(Select(postRows, Placement, rows[i].name), Placement);
        rows[i].name != "" && Select(preRows, Placement, rows[i].name) != []
        && rows[i].preSpend == a.spend && rows[i].postSpend == b.spend
        && rows[i].preImpressions == a.impressions && rows[i].postImpressions == b.impressions
        && rows[i].preConversions == a.conversions && rows[i].postConversions == b.conversions
  {
    JoinedSums(preRows, postRows, Placement);
  }

  /** Every country row carries the spend and conversions summed over exactly the
      pre-period and post-period records of its country, and the region of the
      first pre-period record of that country. */
  lemma CountryRowsAreSums(preRows: seq<Row>, postRows: seq<Row>)
    ensures WellFormed(GroupBy(preRows, Country))
    ensures var rows := CountryRows(LeftJoin(GroupBy(preRows, Country), GroupBy(postRows, Country)));
      forall i :: 0 <= i < |rows| ==>
        var a, b := SumContributions(Select(preRows, Country, rows[i].country), Country),
                    SumContributions(Select(postRows, Country, rows[i].country), Country);
        rows[i].country != "" && Select(preRows, Country, rows[i].country) != []
        && rows[i].preSpend == a.spend && rows[i].postSpend == b.spend
        && rows[i].preConversions == a.conversions && rows[i].postConversions == b.conversions
        && exists j :: 0 <= j < |preRows| && KeyOf(Country, preRows[j].record) == rows[i].country
             && (forall l :: 0 <= l < j ==> KeyOf(Country, preRows[l].record) != rows[i].country)
             && rows[i].region == preRows[j].record.region
  {
    var pre, post := GroupBy(preRows, Country), GroupBy(postRows, Country);
    JoinedSums(preRows, postRows, Country);
    LeftJoinKeys(pre, post);
    var js := LeftJoin(pre, post);
    var rows := CountryRows(js);
    forall i | 0 <= i < |rows|
      ensures exists j :: 0 <= j < |preRows| && KeyOf(Country, preRows[j].record) == rows[i].country
                && (forall l :: 0 <= l < j ==> KeyOf(Country, preRows[l].record) != rows[i].country)
                && rows[i].region == preRows[j].record.region
    {
      GroupByFirst(preRows, Country, js[i].key);
    }
  }

  /** Every device row carries the spend and conversions summed over exactly the
      pre-period and post-period records of its platform. */
  lemma DeviceRowsAreSums(preRows: seq<Row>, postRows: seq<Row>)
    ensures WellFormed(GroupBy(preRows, Device))
    ensures var rows := DeviceRows(LeftJoin(GroupBy(preRows, Device), GroupBy(postRows, Device)));
      forall i :: 0 <= i < |rows| ==>
        var a, b := SumContributions(Select(preRows, Device, rows[i].platform), Device),
                    SumContributions(Select(postRows, Device, rows[i].platform), Device);
        rows[i].platform != "" && Select(preRows, Device, rows[i].platform) != []
        && rows[i].preSpend == a.spend && rows[i].postSpend == b.spend
        && rows[i].preConversions == a.conversions && rows[i].postConversions == b.conversions
  {
    JoinedSums(preRows, postRows, Device);
  }

  /** Every row of a sorted and cut performance list is the row of one group,
      and no two rows share a name. */
  lemma TopRowsAreSums(preRows: seq<Row>, postRows: seq<Row>, d: Dimension, guardByPre: bool, n: nat)
    ensures WellFormed(GroupBy(preRows, d))
    ensures var t := Top(PerformanceRows(LeftJoin(GroupBy(preRows, d), GroupBy(postRows, d)), guardByPre), n);
      DistinctNames(t) && forall i :: 0 <= i < |t| ==> IsGroupRow(t[i], preRows, postRows, d)
  {
    PerformanceRowsAreSums(preRows, postRows, d, guardByPre);
    var rows := PerformanceRows(LeftJoin(GroupBy(preRows, d), GroupBy(postRows, d)), guardByPre);
    var t := Top(rows, n);
    assert multiset(t) <= multiset(rows) by { TopKeepsLargest(rows, n); }
    DistinctNamesSub(rows, t);
    SubKeepsGroupRows(rows, t, preRows, postRows, d);
  }

  /** Rows drawn from a list of group rows are group rows. */
  lemma SubKeepsGroupRows(rows: seq<PerformanceRow>, t: seq<PerformanceRow>, preRows: seq<Row>, postRows: seq<Row>, d: Dimension)
    requires multiset(t) <= multiset(rows)
    requires forall i :: 0 <= i < |rows| ==> IsGroupRow(rows[i], preRows, postRows, d)
    ensures forall i :: 0 <= i < |t| ==> IsGroupRow(t[i], preRows, postRows, d)
  {
    forall i | 0 <= i < |t|
      ensures IsGroupRow(t[i], preRows, postRows, d)
    {
      assert t[i] in multiset(t);
      var p :| 0 <= p < |rows| && rows[p] == t[i];
    }
  }

  /** The shape of the report: at most 20 campaigns, 20 ad sets and 15 ads, each
      list sorted by descending total spend with distinct names; every row of
      every breakdown comes from a pre-period key, so a key only the post period
      has never appears; the placement, country and device lists have one row per
      pre-period key. */
  lemma ReportShape(s: AllStats)
    requires PreMapsWellFormed(s)
    ensures var r := AssembleReport(s);
      |r.campaigns| <= 20 && |r.adSets| <= 20 && |r.topAds| <= 15
      && SortedByTotal(r.campaigns) && SortedByTotal(r.adSets) && SortedByTotal(r.topAds)
      && DistinctNames(r.campaigns) && DistinctNames(r.adSets) && DistinctNames(r.topAds)
      && (forall i :: 0 <= i < |r.campaigns| ==> r.campaigns[i].name in s.campaigns.pre.campaigns.entries)
      && (forall i :: 0 <= i < |r.adSets| ==> r.adSets[i].name in s.adSets.pre.adSets.entries)
      && (forall i :: 0 <= i < |r.topAds| ==> r.topAds[i].name in s.ads.pre.ads.entries)
      && |r.placements| == |s.placements.pre.placements.keys|
      && (forall i :: 0 <= i < |r.placements| ==> r.placements[i].name in s.placements.pre.placements.entries)
      && (forall i :: 0 <= i < |r.geographic| ==> r.geographic[i].country in s.countries.pre.countries.entries)
      && (forall i :: 0 <= i < |r.devices| ==> r.devices[i].platform in s.devices.pre.devices.entries)
  {
    PerformanceShape(s.campaigns.pre.campaigns, s.campaigns.post.campaigns, false, 20);
    PerformanceShape(s.adSets.pre.adSets, s.adSets.post.adSets, true, 20);
    PerformanceShape(s.ads.pre.ads, s.ads.post.ads, false, 15);
    LeftJoinKeys(s.placements.pre.placements, s.placements.post.placements);
    LeftJoinKeys(s.countries.pre.countries, s.countries.post.countries);
    LeftJoinKeys(s.devices.pre.devices, s.devices.post.devices);
  }

  /** One sorted and cut performance list: sorted, distinct names, pre-period keys only. */
  lemma PerformanceShape(pre: GroupMap, post: GroupMap, guardByPre: bool, n: nat)
    requires WellFormed(pre)
    ensures var t := Top(PerformanceRows(LeftJoin(pre, post), guardByPre), n);
      |t| <= n && SortedByTotal(t) && DistinctNames(t)
      && forall i :: 0 <= i < |t| ==> t[i].name in pre.entries
  {
    LeftJoinKeys(pre, post);
    var rows := PerformanceRows(LeftJoin(pre, post), guardByPre);
    var t := Top(rows, n);
    TopKeepsLargest(rows, n);
    DistinctNamesSub(rows, t);
    forall i | 0 <= i < |t|
      ensures t[i].name in pre.entries
    {
      assert t[i] in multiset(t);
      var p :| 0 <= p < |rows| && rows[p] == t[i];
    }
  }
}
