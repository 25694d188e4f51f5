# Meta ads pre/post comparison — a Dafny model

The system is a dashboard that compares a Meta (Facebook) ad account across two
periods. One period is before a change, the "pre" period; the other is after it,
the "post" period. It has two server routes:

- `comprehensive-insights`:
  - splits each period into 7-day chunks;
  - pages through the Graph API insights endpoint per chunk;
  - retries the whole period on transient errors;
  - aggregates the ad records into totals and seven group-by maps (campaign, ad set, ad, placement, age-gender, country, device);
  - assembles a report with derived metrics, and left joins of the pre-period groups with their post-period counterparts, sorted by spend and cut to the top N.
- `insights`: the simpler route. It concatenates pages and splits conversion value into website, in-app and offline channels.

The dashboard components are small calculators:

- the percentage change and its good/bad classification;
- the overview metric table;
- performance-table totals;
- placement spend shares;
- the device icon classifier;
- guarded ROAS, efficiency and savings formulas.

The model is one module per concern:

| file | module | models |
|---|---|---|
| `basics.dfy` | `Basics` | `Option`, substring search, ASCII lowercasing, the zero-guarded ratio, two lemmas on scaling reals |
| `date_chunks.dfy` | `DateChunks` | `splitDateRange`, on integer day numbers |
| `event_match.dfy` | `EventMatch` | the `isMatch` if-chain of the aggregator |
| `records.dfy` | `Records` | an ad record, its per-record tally and the two summing loops |
| `aggregation.dfy` | `Aggregation` | `parseComprehensiveData`: totals and insertion-ordered group maps |
| `pagination.dfy` | `Pagination` | the page loop of `fetchSingleDateRange` over a server function |
| `retry.dfy` | `Retry` | `fetchComprehensiveInsights`: chunk loop, retry rule, backoff |
| `report.dfy` | `Report` | `calculateMetrics`, `summaryTotals`, the overview, joins, sort and top-N |
| `handler.dfy` | `Handler` | `POST` of the comprehensive route, with fetch results as inputs |
| `insights.dfy` | `Insights` | `parseMetaData` and `fetchMetaAdsInsights` of the insights route |
| `change.dfy` | `Change` | the shared `calculateChange` and the positive/negative classification |
| `advanced_metrics.dfy` | `AdvancedMetricsSection` | the ROAS, cost, savings and ROI formulas |
| `summary_totals.dfy` | `SummaryTotalsSection` | the six summary cards and the table badges |
| `overview.dfy` | `OverviewSection` | the ten-metric overview, cards and impact labels |
| `performance.dfy` | `PerformanceSection` | `calculateTotals`, the totals row and the row badges |
| `placement.dfy` | `PlacementSection` | `totalPostSpend` and `spendShare` |
| `device.dfy` | `DeviceSection` | `getDeviceIcon` and the efficiency ratio |
| `geographic.dfy` | `GeographicSection` | `calculateRoas` and the location rows |

## Representation

- Dates are integer day numbers, and a chunk is a closed range of days.
- Counts are `int`, since the source parses them with `parseInt`.
- Money is `real`.
- A missing numeric field is `None` and reads as 0.
- A missing dimension field is the empty string. The source's truthiness test does not tell the two apart.
- Group maps keep their keys in a sequence beside the map, because a JavaScript `Map` iterates in insertion order and the report depends on that order.
- The ads API is a total function from requests to responses. A request carries the attempt, the chunk, the page number and the URL, so a server that answers a retried URL differently can be expressed.
- The insights route's open-ended page loop reads a sequence of responses. It requires that some response ends the chain.
- The loops of the source stay loops, in methods proved equal to a specification function:
  - `DateChunks.SplitDateRange`
  - `Records.SumMatchingActions`
  - `Records.SumMatchingValues`
  - `Aggregation.ParseComprehensiveData`
  - `Pagination.FetchSingleDateRange`
  - `Retry.FetchChunks`
  - `Insights.CountConversions`
  - `Insights.SplitValues`
  - `Insights.ParseMetaData`
  - `Insights.FetchMetaAdsInsights`
  - `Handler.Post`

  The properties are lemmas about those functions.

## Where the code and its description differ

The model follows the code. The following points differ from a natural reading of the system's description.

- **Chunking.** `splitDateRange` yields no chunk when start equals end. When `end - start` is a positive multiple of 7, the last day of the period is never queried (`DateChunks.EndDayDropped`).
- **Rate limits are never retried.** The retry test accepts "temporarily unavailable", "timed out" or "rate limit". But the page loop rethrows only errors mentioning "timeout" or "temporarily unavailable", and keeps the partial data of every other error. So a rate-limit error, or a bare "timed out", never reaches the retry (`Pagination.RateLimitSwallowed`, `Retry.RetriedErrors`).
- **Non-transient errors.** A non-transient API error ends the chunk with the pages it already fetched, not with an error.
- **Redundant checks.** The `"Invalid cursor"` test is subsumed by the `"cursor"` test. Every pixel-alias branch of the event matcher is subsumed by its substring test.
- **Left joins.** The report rows are left joins over the pre-period keys, so a key that only the post period has never appears.
- **Age-gender.** The age-gender rows are always empty, because that breakdown is never fetched.
- **Ad-set post ROAS.** The ad-set post ROAS is guarded by the pre-period spend. It is therefore a division by zero, returned as `null`, when the post-period spend is 0 (`Report.PostRoasNull`).
- **Summary table badge.** The summary-totals table shows the "destructive" badge for a zero change, while the cards show it as neutral (`SummaryTotalsSection.TableAgreesWithCards`).
- **"ROAS" as conversions per dollar.** The performance totals row, the geographic section and the device efficiency compute conversions per unit of spend, not value per unit of spend.

## Model

| member | source | states |
|---|---|---|
| DateChunks.Chunks | app/api/meta/comprehensive-insights/route.ts:14-35 | the chunk list has ceil((end - start) / maxDays) entries, the k-th starting maxDays·k days after the start |
| DateChunks.SplitDateRange | app/api/meta/comprehensive-insights/route.ts:14-35 | the date-advancing loop produces exactly the chunk list |
| DateChunks.ChunkBounds | app/api/meta/comprehensive-insights/route.ts:21-31 | every chunk lies within [start, end], starts no later than it ends and spans at most maxDays days |
| DateChunks.ChunksAscending | app/api/meta/comprehensive-insights/route.ts:21-31 | chunks are in ascending order and pairwise disjoint |
| DateChunks.ChunkCountValue | app/api/meta/comprehensive-insights/route.ts:21-31 | for start < end the number of chunks is the quotient of the length by maxDays, plus one for a remainder |
| DateChunks.ChunkCoverage | app/api/meta/comprehensive-insights/route.ts:14-35 | a day is covered by some chunk if and only if start < end and the day is in [start, end), or it is the end day and the length is not a multiple of maxDays |
| DateChunks.EndDayDropped | app/api/meta/comprehensive-insights/route.ts:14-35 | no chunk when start >= end; when the length is a multiple of maxDays, no chunk reaches the end day |
| EventMatch.MatchChainIsContains | app/api/meta/comprehensive-insights/route.ts:267-299 | the if-chain of exact, alias and substring tests holds exactly when the action type contains the event name |
| EventMatch.AliasContained | app/api/meta/comprehensive-insights/route.ts:269-277 | every pixel alias of an event contains the event, so the alias branches add nothing |
| EventMatch.IsMatchIsContains | app/api/meta/comprehensive-insights/route.ts:261-299 | an action matches exactly when its lowercased type (empty when missing) contains the lowercased event name |
| EventMatch.MatchEdgeCases | app/api/meta/comprehensive-insights/route.ts:225-299 | an empty event name matches every action, and a missing action type matches only the empty event name |
| EventMatch.MatchExamples | app/api/meta/comprehensive-insights/route.ts:267-299 | case-insensitive and pixel-prefixed purchases match "purchase"; "lead" does not |
| Records.UnmatchedActionsIgnored | app/api/meta/comprehensive-insights/route.ts:257-308 | a record none of whose actions match counts no conversions |
| Records.MatchedConversionsAppend | app/api/meta/comprehensive-insights/route.ts:257-308 | the matched conversion count is additive over the actions list |
| Records.SumMatchingActions | app/api/meta/comprehensive-insights/route.ts:257-308 | the loop over `actions` returns the sum of the parsed values of the matching actions |
| Records.SumMatchingValues | app/api/meta/comprehensive-insights/route.ts:312-363 | the loop over `action_values` returns the sum of the matching values, independently of `actions` |
| Aggregation.AddRecord | app/api/meta/comprehensive-insights/route.ts:243-472 | one iteration adds the record's spend, impressions, clicks, conversions and value to the totals and to each of the seven maps it has a key for |
| Aggregation.ParseComprehensiveData | app/api/meta/comprehensive-insights/route.ts:224-479 | the record loop ends with the statistics of the whole list |
| Aggregation.GroupByKeys | app/api/meta/comprehensive-insights/route.ts:368-472 | a key has an entry if and only if it is non-empty and some record carries it |
| Aggregation.GroupByTally | app/api/meta/comprehensive-insights/route.ts:368-472 | an entry holds the sums over exactly the records carrying its key |
| Aggregation.GroupByFirst | app/api/meta/comprehensive-insights/route.ts:451-461 | an entry keeps the record that created it (the source of a country's region), one of the input records |
| Aggregation.GroupByWellFormed | app/api/meta/comprehensive-insights/route.ts:368-472 | the key order lists each key of the map exactly once |
| Aggregation.AggregateWellFormed | app/api/meta/comprehensive-insights/route.ts:224-479 | all seven maps of a period's statistics are well formed |
| Aggregation.GroupByKeysPrefix | app/api/meta/comprehensive-insights/route.ts:368-472 | keys are only ever appended, never removed or reordered |
| Aggregation.TotalsAppend | app/api/meta/comprehensive-insights/route.ts:243-250 | the totals of two record lists put together are the sums of their totals |
| Aggregation.AggregationExample | app/api/meta/comprehensive-insights/route.ts:243-384 | a single purchase record yields the expected totals and campaign entry and no entries for its empty fields |
| Pagination.FetchSingleDateRange | app/api/meta/comprehensive-insights/route.ts:134-221 | the page loop ends as the specification of a chunk fetch says |
| Pagination.RequestsShape | app/api/meta/comprehensive-insights/route.ts:139-201 | at most 5 requests; the first is the chunk's first page; each later one follows the next link of a non-empty page |
| Pagination.CollectedIsHarvest | app/api/meta/comprehensive-insights/route.ts:183-199 | a completed chunk returns the rows of every page it requested, in order |
| Pagination.RaisedIffLastErrorTransient | app/api/meta/comprehensive-insights/route.ts:203-216 | a chunk raises an error exactly when its last request failed with a non-cursor error mentioning a timeout or an unavailable service, and it raises that error |
| Pagination.CursorTestIsSubstring | app/api/meta/comprehensive-insights/route.ts:206-209 | the cursor test is the same as a test for "cursor" |
| Pagination.RateLimitSwallowed | app/api/meta/comprehensive-insights/route.ts:163-216 | a rate-limit answer on the first page ends the chunk with no rows and no error |
| Retry.FetchChunks | app/api/meta/comprehensive-insights/route.ts:56-76 | the chunk loop of one attempt is the attempt's specification |
| Retry.FetchComprehensiveInsights | app/api/meta/comprehensive-insights/route.ts:42-95 | the recursive fetch returns the specified result and backoff waits |
| Retry.BackoffSchedule | app/api/meta/comprehensive-insights/route.ts:81-90 | at most three retries from the first attempt, with the k-th wait 1000·2^k ms |
| Retry.BackoffValues | app/api/meta/comprehensive-insights/route.ts:87 | the waits are 1000, 2000 and 4000 ms |
| Retry.AttemptConcatenates | app/api/meta/comprehensive-insights/route.ts:61-73 | an attempt whose chunks all complete returns their rows concatenated in chunk order |
| Retry.AttemptRaisesFirstError | app/api/meta/comprehensive-insights/route.ts:61-73 | an attempt fails exactly when some chunk raises, with the first such chunk's error, discarding earlier rows |
| Retry.FailureNotRetryable | app/api/meta/comprehensive-insights/route.ts:77-93 | a failed fetch failed with an error its last attempt could not retry, which the page loop rethrew |
| Retry.ChunkRaisedIsRethrown | app/api/meta/comprehensive-insights/route.ts:203-216 | whatever a chunk raises mentions a timeout or an unavailable service |
| Retry.RetriedErrors | app/api/meta/comprehensive-insights/route.ts:81-86 | a retried error mentions "temporarily unavailable", or mentions "timeout" together with "timed out" or "rate limit" |
| Report.CalculateMetrics | app/api/meta/comprehensive-insights/route.ts:595-602 | each derived metric is its ratio when the guarding denominator is positive, and 0 otherwise |
| Report.MetaACRIsPostConversionRate | app/api/meta/comprehensive-insights/route.ts:619 | the Meta ACR is the post-period conversion rate |
| Report.SummaryTotalsOf | app/api/meta/comprehensive-insights/route.ts:608-620 | the Meta ACR is zero exactly without post clicks or conversions, and is otherwise conversions per hundred clicks |
| Report.OverviewPeriodsIndependent | app/api/meta/comprehensive-insights/route.ts:629-652 | the pre-period metrics do not depend on the post period |
| Report.LeftJoin | app/api/meta/comprehensive-insights/route.ts:654-660 | one joined row per pre-period key, in insertion order |
| Report.LeftJoinKeys | app/api/meta/comprehensive-insights/route.ts:654-757 | the joined keys are exactly the pre-period keys, each once, with the matching post group or zeros |
| Report.Divide | app/api/meta/comprehensive-insights/route.ts:683 | a quotient exists exactly for a non-zero divisor |
| Report.PostRoasNull | app/api/meta/comprehensive-insights/route.ts:667-698 | the campaign and ad post ROAS are always numbers; an ad-set post ROAS is null exactly when its pre spend is positive and its post spend is 0 |
| Report.SortByTotal | app/api/meta/comprehensive-insights/route.ts:671 | sorting permutes the rows |
| Report.SortByTotalSorted | app/api/meta/comprehensive-insights/route.ts:671 | sorted by descending total spend, and a permutation of the input |
| Report.TopKeepsLargest | app/api/meta/comprehensive-insights/route.ts:671-672 | the cut keeps min(n, count) sorted input rows, and no dropped row outspends a kept one |
| Report.PlacementRows | app/api/meta/comprehensive-insights/route.ts:721-736 | one placement row per joined key, named by it |
| Report.CountryRows | app/api/meta/comprehensive-insights/route.ts:737-747 | one country row per joined key, named by it |
| Report.DeviceRows | app/api/meta/comprehensive-insights/route.ts:748-757 | one device row per joined key, named by it |
| Report.JoinedSums | app/api/meta/comprehensive-insights/route.ts:654-757 | each joined row carries the sums over exactly the pre-period and post-period records with its key |
| Report.PerformanceRowsAreSums | app/api/meta/comprehensive-insights/route.ts:654-700 | performance rows have distinct names and are the sums of their groups |
| Report.TopRowsAreSums | app/api/meta/comprehensive-insights/route.ts:654-702 | the same survives the sort and cut |
| Report.PlacementRowsAreSums | app/api/meta/comprehensive-insights/route.ts:721-736 | each placement row carries the spend, impressions and conversions of exactly the pre-period and post-period records of its placement |
| Report.CountryRowsAreSums | app/api/meta/comprehensive-insights/route.ts:737-747 | each country row carries the spend and conversions of exactly its pre-period and post-period records, and the region of its first pre-period record |
| Report.DeviceRowsAreSums | app/api/meta/comprehensive-insights/route.ts:748-757 | each device row carries the spend and conversions of exactly the pre-period and post-period records of its platform |
| Report.PerformanceShape | app/api/meta/comprehensive-insights/route.ts:654-702 | a performance list has at most n rows, sorted, with distinct names, all pre-period keys |
| Report.ReportShape | app/api/meta/comprehensive-insights/route.ts:629-757 | at most 20/20/15 rows, sorted, distinct and pre-period only; one placement row per pre-period placement |
| Handler.Settled | app/api/meta/comprehensive-insights/route.ts:506-509 | a pair of fetches settles exactly when both succeed, with both record lists |
| Handler.StatsOf | app/api/meta/comprehensive-insights/route.ts:579-592 | the parsed statistics of all data sets have well-formed pre-period maps |
| Handler.Post | app/api/meta/comprehensive-insights/route.ts:481-773 | the handler answers as its closed form says |
| Handler.MissingParameters | app/api/meta/comprehensive-insights/route.ts:493-495 | status 400 exactly when a parameter is missing |
| Handler.Rejection | app/api/meta/comprehensive-insights/route.ts:506-509 | a rejected pair carries the error of its only failed fetch, or of the one that rejected first when both failed |
| Handler.AdFetchFailure | app/api/meta/comprehensive-insights/route.ts:504-772 | with parameters present, an error exactly when an ad-level fetch failed: status 500 with the message of the fetch that rejected first |
| Handler.OptionalFetchesDegrade | app/api/meta/comprehensive-insights/route.ts:511-574 | failed campaign, ad-set, placement, country or device fetches empty their rows; age-gender rows are always empty |
| Handler.TopAdsFromRecords | app/api/meta/comprehensive-insights/route.ts:688-702 | end to end, each top-ad row names a distinct pre-period ad and carries the sums of exactly its records |
| Insights.ChannelPrecedence | app/api/meta/insights/route.ts:105-116 | a value goes to website, in-app or offline in that precedence, and only if it also contains the event |
| Insights.PlainEventValueIgnored | app/api/meta/insights/route.ts:105-116 | a value typed just like the event is credited to no channel |
| Insights.CountConversions | app/api/meta/insights/route.ts:97-102 | the action loop sums the values of the actions whose type contains the event |
| Insights.SplitValues | app/api/meta/insights/route.ts:105-116 | the value loop returns the three channel sums |
| Insights.ParseMetaData | app/api/meta/insights/route.ts:77-129 | the nested loops end with the statistics of all ads |
| Insights.RoasSplit | app/api/meta/insights/route.ts:119-126 | the total value is the sum of the channels; with spend, each ROAS is its value per unit of spend and the total ROAS is the sum of the channels'; without spend, all ROAS stay 0 |
| Insights.ChannelValueMatched | app/api/meta/insights/route.ts:105-116 | with non-negative values, a channel never holds more than the comprehensive route's matched value |
| Insights.ConversionsAgree | app/api/meta/insights/route.ts:97-102 | both routes count the same conversions for the same actions |
| Insights.FetchMetaAdsInsights | app/api/meta/insights/route.ts:53-74 | the page loop ends as the fetch's specification says; it requests the base URL with the period's parameters, then each next link with a "?" appended, because the emptied parameters serialise to "" |
| Insights.FetchAllCases | app/api/meta/insights/route.ts:55-74 | the fetch throws exactly when a non-ok response or a failed request comes before the chain ends, with that response's status and body or that request's error, and otherwise returns every page's rows in order |
| Insights.EmptyPageFollowed | app/api/meta/insights/route.ts:64-71 | an empty page with a next link is followed and adds nothing |
| Change.CalculateChange | app/components/summary-totals-section.tsx:26-29 | the change is the percentage difference from a non-zero pre value; from zero it is 100 for a positive post value and 0 otherwise |
| Change.ChangeOfEqual | app/components/summary-totals-section.tsx:28 | equal values give no change |
| Change.ChangeSign | app/components/summary-totals-section.tsx:28 | from a positive pre value, the change has the sign of post - pre |
| Change.ChangeZero | app/components/summary-totals-section.tsx:26-29 | the change is 0 exactly for equal values, or from 0 to a non-positive value |
| Change.ClassificationExclusive | app/components/summary-totals-section.tsx:107-108 | positive and negative never both hold, neither holds exactly for a zero change, and flipping the direction swaps them |
| Change.VariantOf | app/components/summary-totals-section.tsx:136-144 | the badge is "default" for positive, "destructive" for negative, "secondary" for no change |
| AdvancedMetricsSection.Percent | app/components/advanced-metrics-section.tsx:56 | a percentage of a positive base, 0 otherwise |
| AdvancedMetricsSection.RoiOnSaving | app/components/advanced-metrics-section.tsx:61-65 | 0 without a subscription; otherwise the post value or the qualified-lead saving, whichever the net-saving test picks, per unit of subscription |
| AdvancedMetricsSection.SavingFiguresAgree | app/components/advanced-metrics-section.tsx:46-50 | the decrease in cost per conversion and the percentage saving are always equal |
| AdvancedMetricsSection.RatiosGuarded | app/components/advanced-metrics-section.tsx:40-60 | every ratio is its quotient under a positive denominator, and 0 otherwise |
| AdvancedMetricsSection.NetSavingMeaning | app/components/advanced-metrics-section.tsx:49-51 | the net saving is what the post conversions would have cost at the old cost, minus the post spend |
| AdvancedMetricsSection.AdditionalRevenueMeaning | app/components/advanced-metrics-section.tsx:53-57 | the additional revenue is the post value minus what the post conversions would have been worth at the old average |
| AdvancedMetricsSection.SavingSign | app/components/advanced-metrics-section.tsx:46-50 | the saving is positive exactly when the cost per conversion fell |
| SummaryTotalsSection.SummaryMetrics | app/components/summary-totals-section.tsx:35-91 | six cards; only Meta ACR is static; only spend counts a decrease as good |
| SummaryTotalsSection.TableVariant | app/components/summary-totals-section.tsx:184-199 | the table badge is "default" exactly for a positive classification, and "destructive" otherwise |
| SummaryTotalsSection.CardBadge | app/components/summary-totals-section.tsx:106-146 | a card has a change badge exactly when it is not static; the badge is "default" exactly for a change the good way and "destructive" exactly for one the bad way |
| SummaryTotalsSection.MetaAcrIsStatic | app/components/summary-totals-section.tsx:84-132 | the Meta ACR card shows the ACR twice, takes its change as zero and draws no change badge |
| SummaryTotalsSection.CardsCompareTotals | app/components/summary-totals-section.tsx:35-106 | the other cards compare the matching totals by their percentage change |
| SummaryTotalsSection.LowerSpendIsGood | app/components/summary-totals-section.tsx:106-108 | from a positive spend, spending less is good and spending more is bad |
| SummaryTotalsSection.MoreConversionsAreGood | app/components/summary-totals-section.tsx:106-108 | from a positive count, more conversions are good and fewer are bad |
| SummaryTotalsSection.TableAgreesWithCards | app/components/summary-totals-section.tsx:132-199 | table and card badges agree exactly on a non-zero change; a zero change is "destructive" in the table |
| OverviewSection.OverviewMetrics | app/components/overview-section.tsx:45-126 | ten metrics, each with its percentage change, bad when rising exactly for the four cost metrics |
| OverviewSection.Cards | app/components/overview-section.tsx:137 | the cards are the first four metrics |
| OverviewSection.CardsAreTotals | app/components/overview-section.tsx:45-137 | the cards show spend, impressions, clicks and conversions of both periods |
| OverviewSection.MetricNamesDistinct | app/components/overview-section.tsx:45-126 | the metric names are distinct |
| OverviewSection.Impact | app/components/overview-section.tsx:189-223 | "Improved" exactly when positive, "Declined" exactly when negative, "No Change" exactly for a zero change |
| OverviewSection.BadgePercent | app/components/overview-section.tsx:161 | the card badge shows the size of the change |
| OverviewSection.NoChangeMeaning | app/components/overview-section.tsx:139-223 | "No Change" exactly for equal values or zero to non-positive; the label agrees with the badge style |
| OverviewSection.CheaperConversionsImprove | app/components/overview-section.tsx:111-117 | from a positive cost per conversion, a lower one is "Improved" and a higher one "Declined" |
| PerformanceSection.CalculateTotals | app/components/performance-section.tsx:50-62 | the reduce leaves both ROAS fields at 0 |
| PerformanceSection.TotalsRow | app/components/performance-section.tsx:64-68 | the totals-row ROAS is conversions per unit of spend under positive spend, and 0 otherwise |
| PerformanceSection.TotalsAppend | app/components/performance-section.tsx:50-62 | the totals of two tables put together are the sums of their totals |
| PerformanceSection.TotalsOfFew | app/components/performance-section.tsx:50-62 | an empty table totals zero; a one-row table totals that row |
| PerformanceSection.TotalsBoundItems | app/components/performance-section.tsx:50-62 | with non-negative columns no row exceeds the totals |
| PerformanceSection.ConvBadge | app/components/performance-section.tsx:106-110 | the badge is hidden exactly for a zero change, "default" for a rise and "destructive" for a fall |
| PerformanceSection.ConvBadgeShown | app/components/performance-section.tsx:92-110 | hidden exactly when conversions did not move, or start and stay at zero or below |
| PerformanceSection.TotalsBadge | app/components/performance-section.tsx:144 | "default" exactly when the post ROAS is higher, otherwise "destructive" |
| PerformanceSection.TotalsRoasChange | app/components/performance-section.tsx:145 | the unguarded totals percentage is defined exactly for a non-zero pre ROAS |
| PerformanceSection.TotalsPercentUndefined | app/components/performance-section.tsx:64-146 | it is undefined exactly when the pre period had no spend or no conversions |
| PlacementSection.SpendShare | app/components/placement-section.tsx:60 | the share is the placement's percentage of a positive total, 0 otherwise |
| PlacementSection.SumSharesScaled | app/components/placement-section.tsx:28-60 | the shares times the total make a hundred times the spend |
| PlacementSection.SharesSumTo100 | app/components/placement-section.tsx:28-60 | with a positive total the shares add up to 100 |
| PlacementSection.PostSpendBounded | app/components/placement-section.tsx:28 | with non-negative spends, no placement spent more than the total |
| PlacementSection.ShareBounds | app/components/placement-section.tsx:28-60 | with non-negative spends every share lies in [0, 100] |
| PlacementSection.ConvBadgeMeaning | app/components/placement-section.tsx:59-83 | the badge is neutral exactly for no movement; from a positive count it follows the direction; from zero it is never "destructive" |
| DeviceSection.IconCases | app/components/device-section.tsx:26-35 | exactly one icon: phone names win over tablet names, a monitor otherwise |
| DeviceSection.IconIgnoresCase | app/components/device-section.tsx:27 | the icon ignores letter case |
| DeviceSection.MobilePlatformsArePhones | app/components/device-section.tsx:28-29 | "mobile_app" and "mobile_web" get the phone icon |
| DeviceSection.DesktopIsMonitor | app/components/device-section.tsx:26-35 | "desktop" gets the monitor icon |
| DeviceSection.IpadIsTablet | app/components/device-section.tsx:30-31 | an iPad gets the tablet icon in any case |
| DeviceSection.AndroidTabletIsPhone | app/components/device-section.tsx:28-31 | an Android tablet gets the phone icon |
| DeviceSection.Efficiency | app/components/device-section.tsx:65-66 | conversions per unit of positive spend, 0 otherwise |
| DeviceSection.SameSpendSameBadges | app/components/device-section.tsx:64-95 | with equal positive spends, the efficiency badge agrees with the conversion badge |
| DeviceSection.MoreForLessIsMoreEfficient | app/components/device-section.tsx:65-67 | more conversions for no more spend never lower the efficiency or show a "destructive" badge |
| GeographicSection.CalculateRoas | app/components/geographic-section.tsx:26-28 | conversions per unit of positive spend, 0 otherwise |
| GeographicSection.LocationLines | app/components/geographic-section.tsx:66-67 | the region line is shown exactly when the region is present and non-empty |
| GeographicSection.RoasPerPeriod | app/components/geographic-section.tsx:59-60 | each period's ROAS depends only on that period's columns |
| GeographicSection.RoasMonotone | app/components/geographic-section.tsx:26-28 | at a fixed positive spend, the figure is non-negative and grows with conversions |
| GeographicSection.ConvBadgeMeaning | app/components/geographic-section.tsx:58-77 | "default" exactly for a rise, "destructive" exactly for a fall from a positive count, "secondary" otherwise |

## Left out

- HTTP, JSON parsing, `NextRequest`/`NextResponse` and query strings are left out. Requests and responses are abstract values, and the `POST` handler takes the fetch results as inputs.
- `delay`/`setTimeout`: only the computed waits are modelled, not time passing.
- The `Promise.all` fan-out: the fetches are modelled as results already settled. Of their timing only the order in which two failing fetches reject is kept, as an input.
- `console` logging has no behaviour and is left out.
- `Date`, `setDate` and `toISOString` are replaced by integer day numbers, so time zones and month boundaries are not modelled.
- Basics.Lower: only the ASCII letters A-Z are lowercased. JavaScript's `toLowerCase` also lowercases other Unicode capitals, so for an event name such as "ÉVÉNEMENT" the source matches "événement" while the model does not.
- EventMatch.IsMatchIsContains: inherits the ASCII-only lowercasing of Basics.Lower, so it does not cover event names or action types with non-ASCII capitals.
- Insights.ConversionsAgree: inherits the ASCII-only lowercasing of Basics.Lower.
- Insights.ChannelPrecedence: inherits the ASCII-only lowercasing of Basics.Lower.
- DeviceSection.IconIgnoresCase: case-blind only for the ASCII capitals, because it inherits Basics.Lower.
- IEEE floating point is not modelled:
  - NaN from malformed numeric strings;
  - rounding of `toFixed` and `toLocaleString`;
  - all number formatting.

  Money is a mathematical real.
- The unguarded ROAS-change divisions of the advanced metrics section (app/components/advanced-metrics-section.tsx:149 and 337) are rendering-only expressions and are not modelled. The performance totals percentage at line 145 is modelled, as `None` for a zero divisor.
- PerformanceSection: rows take real ROAS values. A `null` ad-set post ROAS reaching the table, where formatting it would throw, is not modelled.
- The performance totals row's item count (`items.length`) is rendering and is left out.
- The `POST` handler of the insights route, which only wraps two fetches and one parse into a response object, is left out. Its fetch and parse are modelled.
- Insights.FetchMetaAdsInsights requires that the response chain ends. An endpoint that keeps returning next links forever, where the source would loop forever, is not modelled.
- Insights.InsightAction, Insights.InsightValue: `actionType` is always present. The route calls `toLowerCase` on `action_type` without a check (app/api/meta/insights/route.ts:98, 106), so an entry without one makes it throw a TypeError. The model cannot express that throw. The declared interface makes the field required (app/api/meta/insights/route.ts:16, 20).
- Report.SortByTotal: stability of the sort among rows of equal total is not stated. Only order and permutation are.
- Report: the always-empty `interests`, `hourly` and `daily` arrays of the response are not represented.
- React state, JSX, styling and icons are left out, as are the page component, its CSV download and the accounts route. The audience section's change function is the same `calculateChange` that `Change.CalculateChange` models.
