/** `parseComprehensiveData`: one pass over a period's records that sums the
    period totals and groups the records by campaign, ad set, ad, placement,
    age-gender segment, country and device. */
module Aggregation {
  import opened Basics
  import opened EventMatch
  import opened Records

  /** The seven breakdowns the route keeps a map for. */
  datatype Dimension = Campaign | AdSet | Ad | Placement | AgeGender | Country | Device

  /** The grouping key of a record; the empty string means "not grouped here". An
      age-gender key exists only when both halves are present. */
  function KeyOf(d: Dimension, r: Record): string {
    match d
    case Campaign => r.campaignName
    case AdSet => r.adsetName
    case Ad => r.adName
    case Placement => r.publisherPlatform
    case AgeGender => if r.age != "" && r.gender != "" then r.age + "-" + r.gender else ""
    case Country => r.country
    case Device => r.devicePlatform
  }

  /** The part of a record's amounts a group of this breakdown accumulates: a
      placement keeps no value, and age-gender, country and device groups keep
      only spend and conversions. */
  function Contribution(d: Dimension, t: Tally): Tally {
    match d
    case Campaign => t
    case AdSet => t
    case Ad => t
    case Placement => t.(value := 0.0)
    case AgeGender => Tally(t.spend, 0, 0, t.conversions, 0.0)
    case Country => Tally(t.spend, 0, 0, t.conversions, 0.0)
    case Device => Tally(t.spend, 0, 0, t.conversions, 0.0)
  }

  /** A record next to the amounts the loop reads from it (its locals `spend`,
      `impressions`, `clicks`, `conversions` and `value`). */
  datatype Row = Row(record: Record, tally: Tally)

  /** The rows of a period, for an already lowercased event name. */
  function Rows(data: seq<Record>, eventLower: string): (rows: seq<Row>)
    ensures |rows| == |data|
    ensures forall i :: 0 <= i < |data| ==> rows[i] == Row(data[i], RecordTally(data[i], eventLower))
  {
    seq(|data|, i requires 0 <= i < |data| => Row(data[i], RecordTally(data[i], eventLower)))
  }

  /** A map entry: the record that created it (its name, age, gender, region and
      platform fields are read from there) and the running sums. */
  datatype Group = Group(first: Record, tally: Tally)

  /** A JavaScript `Map`: the keys in insertion order next to the lookup table. */
  datatype GroupMap = GroupMap(keys: seq<string>, entries: map<string, Group>)

  ghost predicate Distinct(keys: seq<string>) {
    forall i, j :: 0 <= i < j < |keys| ==> keys[i] != keys[j]
  }

  /** A well-formed map: every key listed once, and exactly the keys of the table. */
  ghost predicate WellFormed(gm: GroupMap) {
    Distinct(gm.keys) && forall k :: k in gm.entries <==> k in gm.keys
  }

  const NoGroups: GroupMap := GroupMap([], map[])

  /** One `if (key) { map.get(key) || fresh; add the amounts; map.set(key, …) }`
      block: a record without the key (an empty string) leaves the map alone, and a
      new key goes to the end of the order. */
  function Add(gm: GroupMap, key: string, r: Record, t: Tally): GroupMap {
    if key == "" then gm
    else if key in gm.entries then
      GroupMap(gm.keys, gm.entries[key := Group(gm.entries[key].first, Plus(gm.entries[key].tally, t))])
    else
      GroupMap(gm.keys + [key], gm.entries[key := Group(r, t)])
  }

  /** The map the loop builds for one breakdown. */
  function GroupBy(rows: seq<Row>, d: Dimension): GroupMap {
    if rows == [] then NoGroups
    else
      var r := rows[|rows| - 1];
      Add(GroupBy(rows[..|rows| - 1], d), KeyOf(d, r.record), r.record, Contribution(d, r.tally))
  }

  /** The period totals: every record counts, grouped or not. */
  function SumTallies(rows: seq<Row>): Tally {
    if rows == [] then Zero else Plus(SumTallies(rows[..|rows| - 1]), rows[|rows| - 1].tally)
  }

  /** The rows whose record carries a given key, in their original order. */
  function Select(rows: seq<Row>, d: Dimension, k: string): seq<Row> {
    if rows == [] then []
    else
      var r := rows[|rows| - 1];
      Select(rows[..|rows| - 1], d, k) + (if KeyOf(d, r.record) == k then [r] else [])
  }

  /** The sum of what the rows contribute to a group of breakdown `d`. */
  function SumContributions(rows: seq<Row>, d: Dimension): Tally {
    if rows == [] then Zero
    else Plus(SumContributions(rows[..|rows| - 1], d), Contribution(d, rows[|rows| - 1].tally))
  }

  /** What `parseComprehensiveData` returns for one period. */
  datatype PeriodStats = PeriodStats(
    totals: Tally,
    campaigns: GroupMap,
    adSets: GroupMap,
    ads: GroupMap,
    placements: GroupMap,
    ageGender: GroupMap,
    countries: GroupMap,
    devices: GroupMap)

  /** The period statistics in closed form. */
  function AggregateRows(rows: seq<Row>): PeriodStats {
    PeriodStats(SumTallies(rows),
      GroupBy(rows, Campaign), GroupBy(rows, AdSet), GroupBy(rows, Ad),
      GroupBy(rows, Placement), GroupBy(rows, AgeGender),
      GroupBy(rows, Country), GroupBy(rows, Device))
  }

  /** What `parseComprehensiveData(data, eventName)` returns. */
  function Aggregate(data: seq<Record>, eventName: string): PeriodStats {
    AggregateRows(Rows(data, Lower(eventName)))
  }

  /** The loop body in closed form: one row added to the totals and to the seven maps. */
  function Step(s: PeriodStats, r: Row): PeriodStats {
    var item, t := r.record, r.tally;
    PeriodStats(Plus(s.totals, t),
      Add(s.campaigns, KeyOf(Campaign, item), item, Contribution(Campaign, t)),
      Add(s.adSets, KeyOf(AdSet, item), item, Contribution(AdSet, t)),
      Add(s.ads, KeyOf(Ad, item), item, Contribution(Ad, t)),
      Add(s.placements, KeyOf(Placement, item), item, Contribution(Placement, t)),
      Add(s.ageGender, KeyOf(AgeGender, item), item, Contribution(AgeGender, t)),
      Add(s.countries, KeyOf(Country, item), item, Contribution(Country, t)),
      Add(s.devices, KeyOf(Device, item), item, Contribution(Device, t)))
  }

  /** The body of the loop over the records: read the amounts, run the two inner
      loops, and update the totals and each map whose key the record carries. */
  method AddRecord(stats: PeriodStats, item: Record, eventLower: string) returns (next: PeriodStats)
    ensures next == Step(stats, Row(item, RecordTally(item, eventLower)))
  {
    var spend := item.spend.GetOr(0.0);
    var impressions := item.impressions.GetOr(0);
    var clicks := item.clicks.GetOr(0);
    var conversions := SumMatchingActions(item.actions, eventLower);
    var value := SumMatchingValues(item.actionValues, eventLower);
    var t := Tally(spend, impressions, clicks, conversions, value);
    next := stats.(totals := Plus(stats.totals, t));
    if item.campaignName != "" {
      next := next.(campaigns := Add(next.campaigns, item.campaignName, item, t));
    }
    if item.adsetName != "" {
      next := next.(adSets := Add(next.adSets, item.adsetName, item, t));
    }
    if item.adName != "" {
      next := next.(ads := Add(next.ads, item.adName, item, t));
    }
    if item.publisherPlatform != "" {
      next := next.(placements := Add(next.placements, item.publisherPlatform, item,
                                      Tally(spend, impressions, clicks, conversions, 0.0)));
    }
    if item.age != "" && item.gender != "" {
      next := next.(ageGender := Add(next.ageGender, item.age + "-" + item.gender, item,
                                     Tally(spend, 0, 0, conversions, 0.0)));
    }
    if item.country != "" {
      next := next.(countries := Add(next.countries, item.country, item, Tally(spend, 0, 0, conversions, 0.0)));
    }
    if item.devicePlatform != "" {
      next := next.(devices := Add(next.devices, item.devicePlatform, item, Tally(spend, 0, 0, conversions, 0.0)));
    }
  }

  /** `parseComprehensiveData`: the single pass over the records. */
  method ParseComprehensiveData(data: seq<Record>, eventName: string) returns (stats: PeriodStats)
    ensures stats == Aggregate(data, eventName)
  {
    var eventLower := Lower(eventName);
    stats := AggregateRows([]);
    for i := 0 to |data|
      invariant stats == AggregateRows(Rows(data[..i], eventLower))
    {
      RowsStep(data, i, eventLower);
      AggregateSnoc(Rows(data[..i], eventLower), Row(data[i], RecordTally(data[i], eventLower)));
      stats := AddRecord(stats, data[i], eventLower);
    }
    assert data[..|data|] == data;
  }

  /** The rows of one more record are the rows so far and that record's row. */
  lemma RowsStep(data: seq<Record>, i: int, e: string)
    requires 0 <= i < |data|
    ensures Rows(data[..i + 1], e) == Rows(data[..i], e) + [Row(data[i], RecordTally(data[i], e))]
  {
  }

  /** Processing one more row is one more step. */
  lemma AggregateSnoc(rows: seq<Row>, r: Row)
    ensures AggregateRows(rows + [r]) == Step(AggregateRows(rows), r)
  {
    assert (rows + [r])[..|rows|] == rows;
  }

  /** The rows with a key are exactly those `Select` keeps. */
  lemma {:induction false} SelectMembers(rows: seq<Row>, d: Dimension, k: string)
    ensures (exists i :: 0 <= i < |rows| && KeyOf(d, rows[i].record) == k) <==> Select(rows, d, k) != []
  {
    if rows != [] {
      var p := rows[..|rows| - 1];
      SelectMembers(p, d, k);
      if exists i :: 0 <= i < |p| && KeyOf(d, p[i].record) == k {
        var i :| 0 <= i < |p| && KeyOf(d, p[i].record) == k;
        assert rows[i] == p[i];
      }
      if exists i :: 0 <= i < |rows| && KeyOf(d, rows[i].record) == k {
        var i :| 0 <= i < |rows| && KeyOf(d, rows[i].record) == k;
        if i < |p| {
          assert p[i] == rows[i];
        }
      }
    }
  }

  /** What one `Add` does to the table: the key (if non-empty) is present
      afterwards, its sums grow by the amounts, and every other entry is untouched. */
  lemma AddEntries(g: GroupMap, key: string, r: Record, t: Tally, k: string)
    ensures k in Add(g, key, r, t).entries <==> k in g.entries || (k == key && key != "")
    ensures k != key && k in g.entries ==> Add(g, key, r, t).entries[k] == g.entries[k]
    ensures k == key && key != "" ==>
      Add(g, key, r, t).entries[k].tally == (if key in g.entries then Plus(g.entries[key].tally, t) else t)
  {
  }

  /** A key is in a breakdown map exactly when it is non-empty and some record carries it. */
  lemma {:induction false} GroupByKeys(rows: seq<Row>, d: Dimension, k: string)
    ensures k in GroupBy(rows, d).entries <==> k != "" && exists i :: 0 <= i < |rows| && KeyOf(d, rows[i].record) == k
  {
    if rows != [] {
      var n := |rows| - 1;
      var p, r := rows[..n], rows[n];
      GroupByKeys(p, d, k);
      AddEntries(GroupBy(p, d), KeyOf(d, r.record), r.record, Contribution(d, r.tally), k);
      if exists i :: 0 <= i < n && KeyOf(d, p[i].record) == k {
        var i :| 0 <= i < n && KeyOf(d, p[i].record) == k;
        assert rows[i] == p[i];
      }
      if exists i :: 0 <= i < |rows| && KeyOf(d, rows[i].record) == k {
        var i :| 0 <= i < |rows| && KeyOf(d, rows[i].record) == k;
        if i < n {
          assert p[i] == rows[i];
        }
      }
    }
  }

  /** Summing the contributions of one more row. */
  lemma SumContributionsSnoc(s: seq<Row>, r: Row, d: Dimension)
    ensures SumContributions(s + [r], d) == Plus(SumContributions(s, d), Contribution(d, r.tally))
  {
    assert (s + [r])[..|s|] == s;
  }

  /** The sums of a group are the contributions of exactly the records carrying its key. */
  lemma {:induction false} GroupByTally(rows: seq<Row>, d: Dimension, k: string)
    requires k in GroupBy(rows, d).entries
    ensures GroupBy(rows, d).entries[k].tally == SumContributions(Select(rows, d, k), d)
  {
    var n := |rows| - 1;
    var p, r := rows[..n], rows[n];
    var g := GroupBy(p, d);
    var c := Contribution(d, r.tally);
    assert GroupBy(rows, d) == Add(g, KeyOf(d, r.record), r.record, c);
    AddEntries(g, KeyOf(d, r.record), r.record, c, k);
    GroupByKeys(p, d, k);
    if KeyOf(d, r.record) == k {
      if k in g.entries {
        GroupByTally(p, d, k);
      }
      assert rows == p + [r];
      TallyOnHit(p, r, d, k);
    } else {
      assert Select(rows, d, k) == Select(p, d, k);
      GroupByTally(p, d, k);
    }
  }

  /** The inductive step of `GroupByTally` when the new row carries the key. */
  lemma {:induction false} TallyOnHit(p: seq<Row>, r: Row, d: Dimension, k: string)
    requires KeyOf(d, r.record) == k && k != ""
    requires k in GroupBy(p, d).entries ==> GroupBy(p, d).entries[k].tally == SumContributions(Select(p, d, k), d)
    ensures Add(GroupBy(p, d), k, r.record, Contribution(d, r.tally)).entries[k].tally
      == SumContributions(Select(p + [r], d, k), d)
  {
    var g, s := GroupBy(p, d), Select(p, d, k);
    assert (p + [r])[..|p|] == p;
    assert Select(p + [r], d, k) == s + [r];
    SumContributionsSnoc(s, r, d);
    AddEntries(g, k, r.record, Contribution(d, r.tally), k);
    if k !in g.entries {
      GroupByKeys(p, d, k);
      SelectMembers(p, d, k);
    }
  }

  /** The `first` record of a group is the earliest record carrying its key. */
  lemma {:induction false} GroupByFirst(rows: seq<Row>, d: Dimension, k: string)
    requires k in GroupBy(rows, d).entries
    ensures exists i :: 0 <= i < |rows| && rows[i].record == GroupBy(rows, d).entries[k].first
                     && KeyOf(d, rows[i].record) == k && forall j :: 0 <= j < i ==> KeyOf(d, rows[j].record) != k
  {
    var n := |rows| - 1;
    var p, r := rows[..n], rows[n];
    var g := GroupBy(p, d);
    AddEntries(g, KeyOf(d, r.record), r.record, Contribution(d, r.tally), k);
    if k in g.entries {
      GroupByFirst(p, d, k);
      var i :| 0 <= i < |p| && p[i].record == g.entries[k].first && KeyOf(d, p[i].record) == k
        && forall j :: 0 <= j < i ==> KeyOf(d, p[j].record) != k;
      assert rows[i] == p[i];
      assert forall j :: 0 <= j < i ==> rows[j] == p[j];
    } else {
      GroupByKeys(p, d, k);
      assert forall j :: 0 <= j < n ==> rows[j] == p[j];
      assert KeyOf(d, rows[n].record) == k;
    }
  }

  /** Every map the loop builds is well formed: its keys are distinct and are
      exactly the keys of its table. */
  lemma {:induction false} GroupByWellFormed(rows: seq<Row>, d: Dimension)
    ensures WellFormed(GroupBy(rows, d))
  {
    if rows != [] {
      GroupByWellFormed(rows[..|rows| - 1], d);
    }
  }

  /** All seven maps of a period's statistics are well formed. */
  lemma AggregateWellFormed(data: seq<Record>, eventName: string)
    ensures var s := Aggregate(data, eventName);
      WellFormed(s.campaigns) && WellFormed(s.adSets) && WellFormed(s.ads) && WellFormed(s.placements)
      && WellFormed(s.ageGender) && WellFormed(s.countries) && WellFormed(s.devices)
  {
    var rows := Rows(data, Lower(eventName));
    GroupByWellFormed(rows, Campaign);
    GroupByWellFormed(rows, AdSet);
    GroupByWellFormed(rows, Ad);
    GroupByWellFormed(rows, Placement);
    GroupByWellFormed(rows, AgeGender);
    GroupByWellFormed(rows, Country);
    GroupByWellFormed(rows, Device);
  }

  /** Keys keep the order in which they first appeared: processing more records
      only appends new keys after the existing ones. */
  lemma {:induction false} GroupByKeysPrefix(rows: seq<Row>, more: seq<Row>, d: Dimension)
    ensures GroupBy(rows, d).keys <= GroupBy(rows + more, d).keys
  {
    if more != [] {
      var m := more[..|more| - 1];
      GroupByKeysPrefix(rows, m, d);
      assert (rows + more)[..|rows + more| - 1] == rows + m;
    } else {
      assert rows + more == rows;
    }
  }

  /** The period totals of two runs of records add up. */
  lemma {:induction false} TotalsAppend(a: seq<Row>, b: seq<Row>)
    ensures SumTallies(a + b) == Plus(SumTallies(a), SumTallies(b))
  {
    if b == [] {
      assert a + b == a;
    } else {
      TotalsAppend(a, b[..|b| - 1]);
      assert (a + b)[..|a + b| - 1] == a + b[..|b| - 1];
    }
  }

  /** The worked example of a single record with spend 10.5, 100 impressions,
      5 clicks, two purchases worth 40: the totals and its campaign's sums. */
  lemma AggregationExample()
    ensures var r := Record(Some(10.5), Some(100), Some(5),
                            [ActionCount(Some("purchase"), Some(2))],
                            [ActionValue(Some("purchase"), Some(40.0))],
                            "A", "", "", "", "", "", "", None, "");
      var s := Aggregate([r], "purchase");
      s.totals == Tally(10.5, 100, 5, 2, 40.0)
      && s.campaigns.keys == ["A"] && s.campaigns.entries["A"] == Group(r, Tally(10.5, 100, 5, 2, 40.0))
      && s.adSets.keys == [] && s.placements.keys == []
  {
    var purchase := "purchase";
    LowerOfLowercase(purchase);
    ContainsSelf(purchase);
    var a := [ActionCount(Some("purchase"), Some(2))];
    var v := [ActionValue(Some("purchase"), Some(40.0))];
    assert a[..0] == [] && v[..0] == [];
    assert MatchedConversions(a, purchase) == 2;
    assert MatchedValue(v, purchase) == 40.0;
  }
}
