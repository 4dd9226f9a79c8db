# Campaign dashboard core, modelled in Dafny

This project models the core of a marketing dashboard. The dashboard collects campaign metrics from two sources:
- an advertising platform's campaign query;
- a local-services (LSA) lead account.

It stores cost-per-click (CPC) samples in a history table and derives hourly CPC trends from them. Users edit a campaign's bidding target (target CPA or target ROAS) from two campaign tables. The model covers:

- **the server side:**
  - the campaign query and its formatting (`GoogleAds`);
  - the LSA metrics fold and its date window (`Lsa`, `Calendar`);
  - the campaigns endpoint, which merges both sources and writes one history sample per platform campaign (`CampaignsApi`, `History`);
  - the CPC-history endpoint (`CpcHistory`);
  - the hourly-trends endpoint (`HourlyTrends`);
  - the two target-update endpoints (`UpdateTcpa`, `UpdateTroas`).
- **the client side:**
  - the dashboard page's totals and merged daily chart data (`Dashboard`);
  - the clicks-and-impressions chart (`ClientChart`);
  - the analytics page's key figures (`Analytics`);
  - the sort and lead-type preferences and the header's account picker (`SortPreferences`, `LeadTypePreferences`, `DashboardHeader`, `ListToggle`);
  - the two campaign tables, which sort rows, compute their target captions, step values with increment/decrement and route target edits to the right endpoint (`CampaignTableCommon`, `LsaCampaignTable`, `CampaignTable`).
- **shared helpers:** JavaScript number rounding and `toFixed` on exact reals (`Numeric`), strings (`Text`), a stable sort standing for `Array.prototype.sort` (`Sorting`), a JavaScript object used as a dictionary (`JsObject`), the shared record shapes (`Types`), and `Option`/`Result` (`Wrappers`).

Pure code is written as functions and lemmas. Code that updates state step by step is written as methods with loops and invariants:
- the LSA row fold;
- the campaigns endpoint's list building and history writes;
- the chart-data merges;
- the React components, as classes whose fields are the component state.

External calls (the platform query, campaign updates, the database) are not run. Each one's outcome is a parameter, and the requests a handler sends are returned or recorded, so contracts can speak about them. The wall clock is a `now` parameter.

Behaviours of the code that a reader might not expect, all modelled as written:
- The CPC-history POST stores one sample. No request removes samples.
- In hourly trends, a campaign with current samples and no previous ones gets trend 100 and direction `up`.
- The current trend window has no upper bound on the timestamp.
- A non-numeric target edit returns before the editor closes, in both tables, so the edit stays open.
- A failed history insert in the campaigns endpoint fails the request with 500. Every sample whose insert succeeded stays stored, whether it comes before or after the failed one.

## Model

| member | source | states |
|---|---|---|
| Numeric.MathRound | src/lib/lsa.ts:139 | `Math.round` gives an integer within half a unit of its argument |
| Numeric.FixedUnits | src/pages/api/google-ads/hourly-trends.ts:62 | `toFixed` prints the count of units nearest the value, never more than half a unit off, with the value's sign |
| Numeric.ToFixed | src/pages/api/google-ads/hourly-trends.ts:75-76 | the number `toFixed` prints is a whole number of units |
| Numeric.FixedUnitsOdd | src/pages/api/google-ads/hourly-trends.ts:62 | `toFixed` rounds symmetrically: negating the value negates the units |
| Text.Lower | src/lib/google-ads.ts:127 | lower-casing keeps the length and maps each character to its lower-case form |
| Text.LowerIdempotent | src/lib/google-ads.ts:127 | lower-casing twice is lower-casing once |
| Text.Compare | src/components/dashboard/CampaignTable.tsx:61 | the three-way comparison is 0 iff the names are equal and negative iff the first sorts before the second |
| Text.NatToDecimal | src/lib/lsa.ts:19-20 | `String(n)` is a non-empty run of digits without a leading zero |
| Text.DecimalRoundTrip | src/lib/lsa.ts:19-20 | reading back the printed digits gives the number |
| Text.PadTwo | src/lib/lsa.ts:19-20 | a month or day below 100 prints as exactly two digits whose value is the number |
| JsObject.Object.Put | src/pages/dashboard.tsx:221 | `obj[k] = v` sets that key only, keeps an existing key's position and appends a new key |
| JsObject.Empty | src/pages/dashboard.tsx:215 | a new object has no keys |
| JsObject.SortedKeys | src/components/dashboard/ClientChart.tsx:72 | `Object.keys(o).sort()` lists every key exactly once, in ascending order |
| Sorting.Sort | src/components/dashboard/CampaignTable.tsx:55 | sorting returns a permutation of its input |
| Sorting.SortSorted | src/components/dashboard/CampaignTable.tsx:55 | under a total preorder the result is sorted |
| Sorting.SortAllEquivalent | src/components/Dashboard/CampaignTable.tsx:39 | the sort is stable: when every two elements compare equal the input order is kept |
| Sorting.Distinct | src/pages/api/google-ads/hourly-trends.ts:24 | `DISTINCT` lists each value of its input exactly once and nothing else |
| GoogleAds.StrategyOfCode | src/lib/google-ads.ts:166-174 | codes 6, 10, 11 and 12, and only those, name TARGET_CPA, MAXIMIZE_CONVERSIONS, MAXIMIZE_CONVERSION_VALUE and TARGET_ROAS; any other code, or none, is UNKNOWN |
| GoogleAds.FormatDateRange | src/lib/google-ads.ts:126-143 | the literal is one of the five range names; an input whose lower-cased form is no recognised alias gives LAST_30_DAYS |
| GoogleAds.FormatDateRangeCaseInsensitive | src/lib/google-ads.ts:127 | lower-casing the range name first never changes the literal |
| GoogleAds.BuildCampaignQuery | src/lib/google-ads.ts:145-164 | the query is the fixed select text ending in `DURING `, the range verbatim, then the fixed tail |
| GoogleAds.FromMicros | src/lib/google-ads.ts:191-198 | the micros field is a number or a text; it sets the target iff it is truthy in JavaScript (a non-zero number or a non-empty text), and then the target is the amount divided by 1,000,000 |
| GoogleAds.ZeroTextSetsTarget | src/lib/google-ads.ts:191-208 | the number 0 leaves the target undefined, but the text "0" is truthy and sets a target of 0, for micros and ratios alike |
| GoogleAds.FromRatio | src/lib/google-ads.ts:201-208 | the ratio field is a number or a text; it sets the target iff it is truthy in JavaScript, and then the target is the ratio unscaled |
| GoogleAds.ResolveTargets | src/lib/google-ads.ts:186-210 | at most one target is set; a CPA only under the two CPA strategies and a ROAS only under the two ROAS strategies, each read from its own strategy's field; UNKNOWN sets neither |
| GoogleAds.MaximizeIgnoresSiblingField | src/lib/google-ads.ts:195-209 | under a maximize strategy changing the sibling `target_*` field leaves the resolved targets unchanged |
| GoogleAds.StatusText | src/lib/google-ads.ts:215 | the status is the lower-cased status when present and non-empty, else `unknown`; never empty |
| GoogleAds.FormatCampaignResponse | src/lib/google-ads.ts:176-227 | fails with `Missing required campaign data` exactly when id, name, metrics or date is missing; otherwise cost is micros / 1,000,000, targets are the resolved ones, and maximizeConversionValue holds iff the strategy is MAXIMIZE_CONVERSION_VALUE |
| GoogleAds.CheckRow | src/lib/google-ads.ts:113-119 | a row is accepted exactly when it has the required data, and then formats as `formatCampaignResponse` does; a row without campaign, metrics or segments is rejected |
| GoogleAds.FormatRows | src/lib/google-ads.ts:113-119 | the rows format successfully iff every row has the required data, and then one record per row in order |
| GoogleAds.GetCampaignStats | src/lib/google-ads.ts:102-124 | a missing refresh token, a failed query or one bad row fails the whole call with the single message `Failed to fetch campaign stats`; it succeeds iff there is a token, the query answers and every row is complete; every record carries the requested account id |
| GoogleAds.GetCampaignStatsRows | src/lib/google-ads.ts:113-119 | on success there is one record per response row, in order, each the formatted row |
| Calendar.PrevDay | src/lib/lsa.ts:35-37 | the day before a valid date is a valid date exactly one day earlier in the running day count |
| Calendar.SubtractDays | src/lib/lsa.ts:41 | stepping back `n` days over month and year boundaries gives a valid date exactly `n` days earlier in the running day count |
| Calendar.DayNumberOrder | src/lib/lsa.ts:35-51 | the running day count orders dates as the calendar does, and two dates have the same count iff they are equal |
| Calendar.YearEnd | src/lib/lsa.ts:35-37 | the days before December plus its 31 days make the year's length, leap years included |
| Calendar.SubtractDaysNotAfter | src/lib/lsa.ts:41-51 | `n` days back is never later than the start, and strictly earlier when `n > 0` |
| Calendar.FirstOfMonth | src/lib/lsa.ts:46 | `setDate(1)` gives the first day of the same month, not after the date |
| Calendar.FormatDate | src/lib/lsa.ts:17-22 | the text is the year followed by exactly six characters |
| Calendar.FormatDateFields | src/lib/lsa.ts:17-22 | the text is `year-MM-DD` with two-digit, zero-padded month and day that read back as the date's month and day |
| Lsa.DateRangeWindow | src/lib/lsa.ts:29-54 | the range name is matched case-insensitively: `today` starts today, `yesterday` is the day before on both ends, `last_7_days` starts 7 days back, `this_month` starts on the first of the month, and any other name starts 30 days back; the end is today except for `yesterday`, and start is never after end |
| Lsa.DateRangeDays | src/lib/lsa.ts:29-54 | counted in days, the window ends today (yesterday for `yesterday`) and spans 0, 0, 7, the day of the month less one, or 30 days |
| Lsa.GetDateRangeFilter | src/lib/lsa.ts:24-60 | the filter is exactly `field BETWEEN 'start' AND 'end'` with both window days formatted as `YYYY-MM-DD` |
| Lsa.CampaignQuery | src/lib/lsa.ts:97-111 | the query is the fixed LSA select text with the date filter as its last condition |
| Lsa.CallsOf | src/lib/lsa.ts:139 | a day's call share is the nearest whole number to 95% of its conversions |
| Lsa.DailyTableKeys | src/lib/lsa.ts:134-146 | a date is in the per-date table exactly when some row entering the metrics branch carries it |
| Lsa.DailyTableLastWins | src/lib/lsa.ts:142-146 | a date's entry is the one written by the last entering row with that date |
| Lsa.DailyTableDates | src/lib/lsa.ts:142-146 | every entry is filed under its own date |
| Lsa.EmptyTableNoSpend | src/lib/lsa.ts:199-212 | an empty per-date table means no row entered, so total spend is 0 and the single-point fallback is unreachable |
| Lsa.FoldRows | src/lib/lsa.ts:117-153 | after the loop calls + messages equal the entering rows' conversions (the remainder split sums exactly), spend sums every entering row's cost, active counts status 2, budget sums budget micros / 1,000,000, and the table is the last-write-wins table |
| Lsa.EmptyMetrics | src/lib/lsa.ts:242-262 | every count and amount is 0, the lists are empty and there is no error |
| Lsa.Detail | src/lib/lsa.ts:171-181 | a detail line has status Active iff the status code is 2, and the row's cost and conversions |
| Lsa.DailyPoint | src/lib/lsa.ts:184-194 | a chart point keeps date, cost and conversions, has 0 clicks and 0 impressions, and carries a conversion split |
| Lsa.ChartSplitNearConversions | src/lib/lsa.ts:190-193 | the independently rounded calls + messages of a point lie within one of its conversions |
| Lsa.ChartSplitNeedNotSum | src/lib/lsa.ts:190-193 | 10 conversions chart as 10 calls and 1 message (11), while the totals split them as 10 and 0 |
| Lsa.Dates | src/lib/lsa.ts:195 | the dates of the points, one per point, in order |
| Lsa.ChartPoints | src/lib/lsa.ts:183-195 | one point per table entry, sorted ascending by date with no date twice, each the entry's point |
| Lsa.BuildMetrics | src/lib/lsa.ts:156-212 | totalLeads = calls + messages; campaigns.total is the row count; one detail per row; the chart points are the sorted table whenever the fallback does not apply |
| Lsa.GetLsaStats | src/lib/lsa.ts:62-240 | no refresh token, or no account id, gives the empty metrics with the matching error; a failed query gives the empty metrics without one; otherwise the result summarises the returned rows: totals, conversations, one campaign detail per row in row order, and one chart point per distinct day |
| Lsa.FoldSummarises | src/lib/lsa.ts:156-212 | the record built from the fold's totals summarises the rows: the lead, call, spend, active and budget totals of the entering rows, the conversations derived from the lead counts, one campaign detail per row in row order, and chart points whose dates are distinct, cover every row's day and come in date order |
| Lsa.KeysCardinality | src/lib/lsa.ts:183 | `Object.values` of the table has one value per date |
| CampaignsApi.FromPlatform | src/lib/google-ads.ts:212-226 | a platform record in the response keeps its id, cost and account id and has no cpc, trend or conversion actions |
| CampaignsApi.FromPlatformAll | src/pages/api/campaigns.ts:32 | one response record per platform record, in order |
| CampaignsApi.PlatformCampaigns | src/pages/api/campaigns.ts:26-32 | a failure is the failure of one of the requested accounts' fetches; on success every record has no cpc and an account id |
| CampaignsApi.Fetch | src/pages/api/campaigns.ts:27-29 | the fetch for an account is `getCampaignStats` for that account, the session's token and the shared date range |
| CampaignsApi.PlatformSucceeds | src/pages/api/campaigns.ts:26-30 | the combined list succeeds iff every account's fetch succeeds: one failing account fails the whole list, with no partial results |
| CampaignsApi.FetchOwnAccount | src/lib/google-ads.ts:102-124 | every record `getCampaignStats` returns for an account carries that account's id |
| CampaignsApi.PlatformAccounts | src/pages/api/campaigns.ts:26-32 | every record of the combined list belongs to one of the requested accounts |
| CampaignsApi.PlatformFailureMessage | src/pages/api/campaigns.ts:26-30 | a failed combined list carries the message `Failed to fetch campaign stats` |
| CampaignsApi.PlatformFirstFailure | src/pages/api/campaigns.ts:26-30 | the first failing account, after a successful prefix, decides the failure of the whole list |
| CampaignsApi.PlatformAppend | src/pages/api/campaigns.ts:26-32 | a successful list extended by one successful account is the old list followed by that account's records, in order (`flat`) |
| CampaignsApi.HarvestRecord | src/pages/api/campaigns.ts:38-67 | the synthetic record has the id `lsa-harvest`, the LSA spend as cost and leads as conversions, zero clicks, impressions and cpc, a stable trend, and the message then call leads as its conversion actions |
| CampaignsApi.HarvestActionsAddUp | src/pages/api/campaigns.ts:43-62 | whatever the LSA fetch returned, the synthetic record's two conversion actions add up to its conversions |
| CampaignsApi.NonHarvest | src/pages/api/campaigns.ts:74 | keeps exactly the campaigns whose id is not `lsa-harvest` |
| CampaignsApi.NonHarvestOne | src/pages/api/campaigns.ts:74 | a single campaign passes the filter iff its id is not `lsa-harvest` |
| CampaignsApi.NonHarvestAppend | src/pages/api/campaigns.ts:74 | the filter distributes over concatenation, so the kept campaigns keep their order |
| CampaignsApi.SampleOf | src/pages/api/campaigns.ts:76-82 | a history row stores the campaign id and the time, and a cpc or cost that is absent or 0 as 0 |
| CampaignsApi.HistorySamples | src/pages/api/campaigns.ts:73-85 | one history row per non-synthetic campaign, in order, none for `lsa-harvest` |
| CampaignsApi.PlatformSamplesHaveZeroCpc | src/pages/api/campaigns.ts:80 | records from the platform client carry no cpc, so every history row written for them stores cpc 0 |
| CampaignsApi.ZeroCpcRowsNeverTrend | src/pages/api/google-ads/hourly-trends.ts:40-72 | a campaign whose history rows all hold cpc 0 never appears in the hourly trends |
| CampaignsApi.Written | src/pages/api/campaigns.ts:73-85 | no more rows are stored than were attempted, and all of them when no insert fails |
| CampaignsApi.WrittenMembers | src/pages/api/campaigns.ts:73-85 | every row whose insert succeeds is stored, and every stored row is an attempted row whose insert succeeded |
| CampaignsApi.FirstInsertErrorMeaning | src/pages/api/campaigns.ts:73-93 | the reported error is absent iff no insert fails, and otherwise is one of the inserts' errors |
| CampaignsApi.WrittenStep | src/pages/api/campaigns.ts:73-85 | one more insert adds its row to the stored rows exactly when it succeeds |
| CampaignsApi.FirstInsertErrorStep | src/pages/api/campaigns.ts:73-93 | one more insert becomes the reported error only when no earlier insert failed |
| CampaignsApi.Handle | src/pages/api/campaigns.ts:12-95 | no session gives 401 and writes nothing; a failed account fetch gives 500 with its message and writes nothing; otherwise the campaigns are the platform records then, iff LSA is enabled, the synthetic record; one history row per non-synthetic campaign is written; an insert failure gives 500 |
| CampaignsApi.Complete | src/pages/api/campaigns.ts:32-93 | with the platform records fetched, the LSA record is added iff LSA is enabled, from the LSA result; one history row per non-synthetic campaign is written in order; an insert failure gives 500 with its message, and every row whose insert succeeded, before or after it, stays stored |
| CampaignsApi.FetchLsa | src/pages/api/campaigns.ts:37 | the LSA metrics are what `getLSAStats` returns for the session and range |
| CampaignsApi.FetchPlatform | src/pages/api/campaigns.ts:26-32 | the per-account loop gives the same list, or the same failure, as the reference function `PlatformCampaigns` |
| CampaignsApi.WriteHistory | src/pages/api/campaigns.ts:73-85 | the store gains exactly the rows whose insert succeeds, in order, and the earliest failure is reported |
| CampaignsApi.HarvestOnlyExcluded | src/pages/api/campaigns.ts:38-74 | with platform ids other than `lsa-harvest`, the appended synthetic record is the only campaign without a history row |
| CampaignsApi.NonHarvestIdentity | src/pages/api/campaigns.ts:74 | a list with no synthetic record passes the filter unchanged |
| History.Hour | src/pages/api/campaigns/cpc-history.ts:29 | `date_trunc('hour', …)` gives the hour boundary at or below the timestamp, less than an hour before it |
| History.Store.constructor | src/pages/api/campaigns/cpc-history.ts:10 | the history table starts empty |
| History.Store.Create | src/pages/api/campaigns/cpc-history.ts:10-17 | an insert appends exactly one row with the given campaign, account, cpc, cost and the current time, and changes no other row |
| CpcHistory.Cutoff | src/pages/api/campaigns/cpc-history.ts:24-35 | the window starts `hours` hours before now, 24 hours when the query gives none |
| CpcHistory.Selected | src/pages/api/campaigns/cpc-history.ts:33-35 | a row is kept iff it belongs to the campaign and is stamped at or after the cutoff |
| CpcHistory.InHour | src/pages/api/campaigns/cpc-history.ts:36 | a row is in an hour's group iff its truncated hour is that hour |
| CpcHistory.HoursOf | src/pages/api/campaigns/cpc-history.ts:29 | each kept row's truncated hour, in order |
| CpcHistory.LaterTotalPreorder | src/pages/api/campaigns/cpc-history.ts:37 | "newer or the same hour" is a total preorder, so the sort is well defined |
| CpcHistory.HoursOfMembers | src/pages/api/campaigns/cpc-history.ts:29 | an hour appears among the rows' hours iff some kept row falls in it |
| CpcHistory.SortedDistinctDescending | src/pages/api/campaigns/cpc-history.ts:36-37 | distinct hours sorted newest first strictly decrease |
| CpcHistory.DescendingHours | src/pages/api/campaigns/cpc-history.ts:36-37 | the grouped hours strictly decrease, and an hour is listed iff some kept row falls in it |
| CpcHistory.GroupNonEmpty | src/pages/api/campaigns/cpc-history.ts:36 | every listed hour's group holds at least one row |
| CpcHistory.BucketOf | src/pages/api/campaigns/cpc-history.ts:29-31 | a group's answer row carries the group's hour, with the mean cpc and mean cost of its rows |
| CpcHistory.HourlyBuckets | src/pages/api/campaigns/cpc-history.ts:27-38 | one answer row per hour holding a kept row, none for any other hour, hours strictly decreasing, each with its own group's averages |
| CpcHistory.BucketsCoverRows | src/pages/api/campaigns/cpc-history.ts:33-36 | every kept row's hour has an answer row |
| CpcHistory.Handle | src/pages/api/campaigns/cpc-history.ts:5-48 | POST appends the body as one row or fails with 500 "Failed to store CPC history"; GET changes nothing and answers the hourly averages or 500 "Failed to fetch CPC history"; any other method gives 405; no request removes a row |
| HourlyTrends.CurrentWindow | src/pages/api/google-ads/hourly-trends.ts:39-42 | a row is in the current window iff it is the campaign's, stamped at or after 15 minutes ago, with a positive cpc |
| HourlyTrends.PreviousWindow | src/pages/api/google-ads/hourly-trends.ts:49-53 | a row is in the previous window iff it is the campaign's, stamped from 30 up to but excluding 15 minutes ago, with a positive cpc |
| HourlyTrends.AvgCpc | src/pages/api/google-ads/hourly-trends.ts:57-58 | an empty window averages 0; over positive cpcs the average is positive iff the window has a row |
| HourlyTrends.LatestTimestamp | src/pages/api/google-ads/hourly-trends.ts:38 | `MAX(timestamp)` is the stamp of some row of the window and no row is later |
| HourlyTrends.Trend | src/pages/api/google-ads/hourly-trends.ts:61-63 | the trend's sign is the sign of the change; with a previous value it is within 0.005 of the exact percentage change; without one it is 100 iff there is a current value and 0 otherwise |
| HourlyTrends.DirectionThreshold | src/pages/api/google-ads/hourly-trends.ts:66-69 | the direction is `up` iff the trend is at least 2, `down` iff at most -2, `stable` otherwise |
| HourlyTrends.EntryFor | src/pages/api/google-ads/hourly-trends.ts:57-82 | a campaign has an entry iff its current window has a row; the entry reports both averages to 2 decimals, the trend, the direction and the latest current-window stamp |
| HourlyTrends.CurrentPositive | src/pages/api/google-ads/hourly-trends.ts:35-72 | the current average is positive iff some history row is in the campaign's current window |
| HourlyTrends.LatestInWindow | src/pages/api/google-ads/hourly-trends.ts:38 | `MAX(timestamp)` is the stamp of a row of the window and no row of the window is later |
| HourlyTrends.ActiveCampaigns | src/pages/api/google-ads/hourly-trends.ts:23-27 | each campaign with a row in the last 30 minutes, once |
| HourlyTrends.RecentIds | src/pages/api/google-ads/hourly-trends.ts:24-26 | an id is listed iff some row in the last 30 minutes has it |
| HourlyTrends.CurrentIsActive | src/pages/api/google-ads/hourly-trends.ts:23-44 | every campaign with a current-window row is among the active ones, so the pre-selection drops no entry |
| HourlyTrends.GetHourlyTrends | src/pages/api/google-ads/hourly-trends.ts:13-94 | a non-GET gives 405; a database error gives 500 with its message; otherwise the map holds exactly the campaigns that have an entry, each with that entry |
| HourlyTrends.CollectTrends | src/pages/api/google-ads/hourly-trends.ts:29-84 | the per-campaign pass stores exactly the listed campaigns that have an entry, each with its entry |
| HourlyTrends.RisingExample | src/pages/api/google-ads/hourly-trends.ts:57-81 | cpc 1 then 2 across the windows reports current 2, previous 1, trend 100, `up` |
| HourlyTrends.RisingWindows | src/pages/api/google-ads/hourly-trends.ts:35-55 | a row 5 minutes old is in the current window only and one 20 minutes old in the previous window only |
| HourlyTrends.AvgOfOne | src/pages/api/google-ads/hourly-trends.ts:37 | `AVG(cpc)` of a single row is that row's cpc |
| HourlyTrends.EntryOfLoneCurrent | src/pages/api/google-ads/hourly-trends.ts:57-81 | with one positive row in the current window the entry reports its cpc against the previous average, and its stamp as `lastUpdated` |
| HourlyTrends.LoneSampleExample | src/pages/api/google-ads/hourly-trends.ts:61-69 | a lone current row and no previous one report trend 100 and `up` |
| HourlyTrends.ThresholdExamples | src/pages/api/google-ads/hourly-trends.ts:66-69 | a change of under 2% is `stable`, one over 5% is `up` |
| UpdateTcpa.ResourceName | src/pages/api/campaigns/update-tcpa.ts:32 | the resource name starts with `customers/` and ends with the campaign id (`undefined` when absent) |
| UpdateTcpa.Request | src/pages/api/campaigns/update-tcpa.ts:24-45 | one operation for the body's account, masked to the maximize-conversions CPA field, whose micros divided by one million give back the typed CPA (no number when the body has none) |
| UpdateTcpa.ErrorReply | src/pages/api/campaigns/update-tcpa.ts:50-56 | a failure answers 500 with the error's message or "Failed to update target CPA", its error list or none, and the fixed explanation |
| UpdateTcpa.Handle | src/pages/api/campaigns/update-tcpa.ts:12-58 | a non-POST gives 405 and no session 401, both without a call; a session without a refresh token fails before any call; otherwise exactly the one request is sent and its failure, if any, is the reply |
| UpdateTroas.LocalStrategyName | src/pages/api/campaigns/update-troas.ts:14-28 | a name exists iff the code is 0 to 12; 5, 6, 7 and 9 are exactly the codes of MAXIMIZE_CONVERSIONS, MAXIMIZE_CONVERSION_VALUE, TARGET_CPA and TARGET_ROAS |
| UpdateTroas.LookupQuery | src/pages/api/campaigns/update-troas.ts:56-65 | the lookup query is the fixed text with the campaign id spliced in verbatim as the `WHERE` value |
| UpdateTroas.ResourceName | src/pages/api/campaigns/update-troas.ts:97 | the resource name starts with `customers/` and ends with the campaign id |
| UpdateTroas.BuildUpdateOperation | src/pages/api/campaigns/update-troas.ts:96-110 | exactly one of the two ROAS fields is written, with the value; it is the maximize-conversion-value field iff the campaign has that field or that strategy |
| UpdateTroas.ErrorMessage | src/pages/api/campaigns/update-troas.ts:122-129 | the first non-empty of the first detail's first error message, the first error's message and the message, else the default text; never empty |
| UpdateTroas.Handle | src/pages/api/campaigns/update-troas.ts:32-139 | 405, 401 and 400 (missing fields) come before any call; a failed lookup gives 500 with the extracted message, no row 404, an unsupported strategy 400 naming it; otherwise one update is sent with the typed percentage divided by 100, and its failure gives 500 |
| UpdateTroas.FieldChoiceStable | src/pages/api/campaigns/update-troas.ts:83-101 | a campaign that already carries the maximize-conversion-value ROAS accepts a ROAS target and has that same field written |
| SortPreferences.Default | src/hooks/useSortPreferences.ts:11-14 | before any click the tables sort by cost, descending |
| SortPreferences.ToggleSort | src/hooks/useSortPreferences.ts:16-21 | a click sorts by the clicked column; a new column starts descending and the same column flips direction |
| SortPreferences.ToggleSortTwice | src/hooks/useSortPreferences.ts:16-21 | two clicks on the sorted column restore the preference |
| SortPreferences.ToggleOtherTwice | src/hooks/useSortPreferences.ts:16-21 | two clicks on another column always leave it ascending |
| ListToggle.Without | src/hooks/useLeadTypePreferences.ts:15 | filtering removes every copy of the value and keeps exactly the other values |
| ListToggle.WithoutAppend | src/hooks/useLeadTypePreferences.ts:15 | filtering distributes over concatenation, so the kept values keep their order |
| ListToggle.WithoutAbsent | src/hooks/useLeadTypePreferences.ts:15 | filtering out an absent value changes nothing |
| ListToggle.WithoutCounts | src/components/Dashboard/DashboardHeader.tsx:35 | every other value keeps its number of copies and the removed one has none |
| ListToggle.Toggle | src/hooks/useLeadTypePreferences.ts:14-16 | the value ends up present iff it was absent; other values are untouched; a present value is filtered out and an absent one appended |
| ListToggle.ToggleAbsentTwice | src/hooks/useLeadTypePreferences.ts:14-16 | adding an absent value and removing it again restores the list exactly |
| LeadTypePreferences.Default | src/hooks/useLeadTypePreferences.ts:5-9 | six distinct default lead types, from Purchases to Request Quotes, sorted by count descending |
| LeadTypePreferences.ToggleLeadType | src/hooks/useLeadTypePreferences.ts:11-18 | the sort settings are kept; the type becomes visible iff it was hidden, other types are unaffected |
| LeadTypePreferences.ToggleLeadTypeTwice | src/hooks/useLeadTypePreferences.ts:11-18 | showing a hidden type and hiding it again gives back the same preferences |
| DashboardHeader.HandleAccountToggle | src/components/Dashboard/DashboardHeader.tsx:33-39 | the account ends up selected iff it was not; other selections are unaffected; a new account is appended, and a deselected one loses every copy while the other selections keep their order |
| DashboardHeader.AccountToggleTwice | src/components/Dashboard/DashboardHeader.tsx:33-39 | selecting an account and deselecting it restores the selection |
| DashboardHeader.HandleRefresh | src/components/Dashboard/DashboardHeader.tsx:41-44 | refresh calls `onRefresh` and then reloads the Salesforce data for the current range |
| Dashboard.WithIds | src/pages/dashboard.tsx:113 | keeps exactly the accounts whose id is not empty |
| Dashboard.AvailableAccounts | src/pages/dashboard.tsx:106-113 | the configured account is offered iff its id is set and not empty, and then it is the only one |
| Dashboard.DashboardState.constructor | src/pages/dashboard.tsx:115-127 | the page starts from the persisted settings and the hook's selection and range |
| Dashboard.DashboardState.Mount | src/pages/dashboard.tsx:154-167 | a non-empty saved selection is restored; otherwise the first available account is selected and saved; with no account nothing changes; a non-empty saved range is restored |
| Dashboard.Seed | src/pages/dashboard.tsx:200-205 | the totals start from the first LSA daily point only, or from zeros when there is none |
| Dashboard.Figures | src/pages/dashboard.tsx:195-199 | one figure of each campaign, in order, a missing figure as 0 |
| Dashboard.FoldSums | src/pages/dashboard.tsx:195-205 | the reduce adds, per figure, the sum over all campaigns to the seed |
| Dashboard.Metrics | src/pages/dashboard.tsx:183-211 | a non-array gives zeros; otherwise each total is the seed plus the campaigns' sum, and cost per lead times conversions is the spend, or 0 with no conversions |
| Dashboard.ZeroEntry | src/pages/dashboard.tsx:242-258 | a day opened by a campaign starts at zero, and its cost equals its LSA plus PPC shares |
| Dashboard.LsaEntry | src/pages/dashboard.tsx:219-235 | an LSA point's day entry books all of its cost as LSA cost |
| Dashboard.AddCampaign | src/pages/dashboard.tsx:261-274 | adding a campaign raises the day's cost and its PPC share by the campaign's cost, leaves the LSA share alone and keeps cost equal to LSA plus PPC |
| Dashboard.SeedEntry | src/pages/dashboard.tsx:218-236 | after the LSA pass a day holds the entry of an LSA point on that day |
| Dashboard.MergedEntry | src/pages/dashboard.tsx:214-275 | a day's final entry keeps its date, and its cost is its LSA share plus its PPC share |
| Dashboard.SeedEntryPresent | src/pages/dashboard.tsx:218-236 | the LSA pass writes an entry for a day iff some LSA point falls on it |
| Dashboard.LastLsaPointWins | src/pages/dashboard.tsx:219-221 | of several LSA points on one day, the last one's figures are kept |
| Dashboard.MergedEntryUntouched | src/pages/dashboard.tsx:240-275 | a day no campaign falls on keeps exactly its LSA entry |
| Dashboard.EntryDates | src/pages/dashboard.tsx:277-278 | the entries' dates, in order |
| Dashboard.SeedLsa | src/pages/dashboard.tsx:218-237 | the dictionary after the LSA pass holds one entry per LSA day, each the last point on that day |
| Dashboard.MergedEntryStep | src/pages/dashboard.tsx:240-275 | one more campaign changes only its own day's entry, by adding itself |
| Dashboard.CampaignDatesStep | src/pages/dashboard.tsx:241 | one more campaign adds exactly its own day to the days mentioned |
| Dashboard.AddFigures | src/pages/dashboard.tsx:261-274 | the field-by-field updates give the same entry as the reference function `AddCampaign` |
| Dashboard.AddToDay | src/pages/dashboard.tsx:241-274 | one step of the campaign pass keeps the dictionary equal to the merge of the LSA points and the campaigns seen so far |
| Dashboard.OpenDay | src/pages/dashboard.tsx:242-258 | opening a missing day adds only that day, and every day still holds its merged entry so far |
| Dashboard.AddToDayKeeps | src/pages/dashboard.tsx:260-274 | writing the campaign's figures into its day extends the merge by that campaign |
| Dashboard.AddToDayValues | src/pages/dashboard.tsx:260-274 | after the write every day holds its merged entry with the campaign counted |
| Dashboard.AddCampaigns | src/pages/dashboard.tsx:240-275 | the campaign pass leaves the dictionary equal to the merge of the LSA points and all campaigns |
| Dashboard.MergeChartData | src/pages/dashboard.tsx:214-279 | one entry per day that an LSA point or a campaign falls on, dates strictly ascending, each the merged entry of that day |
| ClientChart.Expected | src/components/dashboard/ClientChart.tsx:36-70 | a day's four counters are the sums of the campaigns' and the LSA points' clicks and impressions on that day, nothing overwritten |
| ClientChart.PpcTotalAbsent | src/components/dashboard/ClientChart.tsx:39-52 | a day no campaign falls on has PPC counters 0 |
| ClientChart.LsaTotalAbsent | src/components/dashboard/ClientChart.tsx:55-70 | a day no LSA point falls on has LSA counters 0 |
| ClientChart.PpcTotalStep | src/components/dashboard/ClientChart.tsx:50-51 | one more campaign adds its clicks or impressions (0 when missing) to its own day only |
| ClientChart.LsaTotalStep | src/components/dashboard/ClientChart.tsx:67-68 | one more LSA point adds its clicks or impressions to its own day only |
| ClientChart.CampaignDatesStep | src/components/dashboard/ClientChart.tsx:40-49 | one more campaign adds exactly its own day to the days mentioned |
| ClientChart.NoPointDates | src/components/dashboard/ClientChart.tsx:55 | without LSA points no day is mentioned by one |
| ClientChart.PointDatesStep | src/components/dashboard/ClientChart.tsx:57-66 | one more LSA point adds exactly its own day |
| ClientChart.CampaignStepKeeps | src/components/dashboard/ClientChart.tsx:50-51 | adding a campaign's counters into its open day keeps the dictionary equal to the sums so far |
| ClientChart.PointStepKeeps | src/components/dashboard/ClientChart.tsx:67-68 | adding a point's counters into its open day keeps the dictionary equal to the sums so far |
| ClientChart.CampaignKeysStep | src/components/dashboard/ClientChart.tsx:40-51 | writing a campaign into its open day leaves the days mentioned by the campaigns so far, now including it |
| ClientChart.CampaignDaysStep | src/components/dashboard/ClientChart.tsx:50-51 | after writing a campaign into its day, every day holds the sums with that campaign counted |
| ClientChart.CampaignDayStep | src/components/dashboard/ClientChart.tsx:50-51 | the campaign's own day gains its clicks and impressions, every other day is as before |
| ClientChart.PointKeysStep | src/components/dashboard/ClientChart.tsx:57-68 | writing a point into its open day leaves the days mentioned so far, now including its day |
| ClientChart.PointDaysStep | src/components/dashboard/ClientChart.tsx:67-68 | after writing a point into its day, every day holds the sums with that point counted |
| ClientChart.PointDayStep | src/components/dashboard/ClientChart.tsx:67-68 | the point's own day gains its clicks and impressions, every other day is as before |
| ClientChart.OpenDay | src/components/dashboard/ClientChart.tsx:41-49 | opening a missing day with zeros adds that key and keeps every entry equal to its sums |
| ClientChart.AddCampaign | src/components/dashboard/ClientChart.tsx:39-52 | one step of the campaign pass keeps the dictionary equal to the sums over the campaigns seen so far |
| ClientChart.AddPoint | src/components/dashboard/ClientChart.tsx:56-69 | one step of the LSA pass keeps the dictionary equal to the sums over the points seen so far |
| ClientChart.BuildChart | src/components/dashboard/ClientChart.tsx:34-122 | the labels are every day a campaign or an LSA point falls on, once each, in ascending order; the four datasets line up with the labels, each holding that day's sum |
| Analytics.Column | src/pages/analytics.tsx:35-38 | one numeric column of the table, in row order |
| Analytics.Average | src/pages/analytics.tsx:37-38 | the average times the row count is the column's sum |
| Analytics.FirstMax | src/pages/analytics.tsx:39 | the chosen row's value is at least every row's, and every earlier row's is strictly smaller: the earliest maximum wins |
| Analytics.FirstMin | src/pages/analytics.tsx:40 | the chosen row's value is at most every row's, and every earlier row's is strictly larger: the earliest minimum wins |
| Analytics.Growth | src/pages/analytics.tsx:43-45 | a figure exists iff the first value is not 0; it is within 0.05 of the exact percentage change, and not negative (not positive) for a positive start that grew (shrank) |
| Analytics.LeadsPerThousand | src/pages/analytics.tsx:173 | a figure exists iff there is spend; it is within 0.05 of the leads per 1000 spent |
| Analytics.ComputeMetrics | src/pages/analytics.tsx:34-46 | the totals are the column sums, the averages the column means, the extremes the earliest maximal and minimal rows, and the growth figures compare the last row with the first |
| Analytics.AvgCplBetweenExtremes | src/pages/analytics.tsx:37-40 | the average cost per lead lies between the lowest and the highest month's |
| Analytics.BestLeadMonthTie | src/pages/analytics.tsx:21-41 | on the page's table August and October tie on leads and August is reported as the best month |
| CampaignTableCommon.Request | src/components/dashboard/CampaignTable.tsx:109-126 | a request is made iff the strategy routes to an endpoint; it carries the campaign's and account's ids and exactly one target; a CPA strategy (or maximize conversions with a CPA) goes to update-tcpa with the typed value, otherwise a ROAS strategy goes to update-troas with the typed value divided by 100 |
| CampaignTableCommon.BuildRequest | src/components/dashboard/CampaignTable.tsx:109-126 | the step-by-step payload building leaves the endpoint empty iff no request is made, and otherwise gives exactly the request of `Request` |
| CampaignTableCommon.CpaEditWrittenAsTyped | src/pages/api/campaigns/update-tcpa.ts:24 | a CPA edit reaches the platform as the typed amount in micros |
| CampaignTableCommon.SubmitRoasEdit | src/components/dashboard/CampaignTable.tsx:125 | a ROAS edit is divided by 100 in the table and again by the endpoint, so the field the platform is sent holds a ten-thousandth of the typed value |
| CampaignTableCommon.Target | src/components/dashboard/CampaignTable.tsx:160-187 | the target is a ROAS iff the strategy is TARGET_ROAS or MAXIMIZE_CONVERSION_VALUE; it is a maximize target iff the strategy is a maximize one whose target is falsy; its value is the matching field |
| CampaignTableCommon.EditRouting | src/components/dashboard/CampaignTable.tsx:118-126 | an editable target of a known strategy always produces a request, only a known strategy does, and it goes to update-tcpa iff the target is a CPA |
| CampaignTableCommon.PlatformRecordRouting | src/lib/google-ads.ts:186-210 | for a record built from the platform, an edit is sent iff the strategy is known and the target is not a maximize one, or is a maximize one with a target of 0, which only the text "0" produces; it goes to the CPA endpoint iff the strategy is target CPA, or maximize conversions with a CPA set |
| CampaignTableCommon.CaptionOf | src/components/dashboard/CampaignTable.tsx:255-259 | a maximize target reads "Max …", a falsy one "Set …", a ROAS a whole percentage within half a unit of the value times 100, a CPA its amount |
| CampaignTableCommon.Property | src/components/dashboard/CampaignTable.tsx:70-71 | the default sort key is the record's numeric property of that name, 0 when missing or not a numeric property |
| CampaignTableCommon.OrderMeaning | src/components/dashboard/CampaignTable.tsx:55-73 | the comparator puts names in character order and numbers by key, reversed for a descending preference |
| CampaignTableCommon.OrderTotalPreorder | src/components/dashboard/CampaignTable.tsx:55-73 | the comparator is total and transitive, so the sort is well defined |
| CampaignTableCommon.SortCampaigns | src/components/dashboard/CampaignTable.tsx:54-74 | the sorted table is a permutation of the records, ordered by name or by key as the preference asks |
| CampaignTableCommon.SortedMeaning | src/components/dashboard/CampaignTable.tsx:55-73 | a list sorted by the comparator is ordered by name or by key, in the preferred direction |
| LsaCampaignTable.MostCallsFirst | src/components/dashboard/CampaignTable.tsx:62-63 | sorting the calls column descending puts a campaign with the most calls first |
| LsaCampaignTable.StepOf | src/components/dashboard/CampaignTable.tsx:166-186 | the stepper's step is positive: 0.25 for a ROAS and 0.5 for a CPA |
| LsaCampaignTable.Increment | src/components/dashboard/CampaignTable.tsx:189-196 | "+" does something iff the target is truthy, and then raises it by one step |
| LsaCampaignTable.Decrement | src/components/dashboard/CampaignTable.tsx:198-205 | "-" does something iff the target is truthy, and then lowers it by one step but never below one step |
| LsaCampaignTable.DecrementUndoesIncrement | src/components/dashboard/CampaignTable.tsx:189-205 | "-" after "+" restores any target of at least one step |
| LsaCampaignTable.Table.constructor | src/components/dashboard/CampaignTable.tsx:39-50 | the table starts with no row being edited and nothing posted, updated or reloaded |
| LsaCampaignTable.Table.Render | src/components/dashboard/CampaignTable.tsx:151-270 | a local-services row shows its cost; the edited row shows its input; any other row shows its caption, with the stepper buttons iff its target is truthy |
| LsaCampaignTable.Table.StartEditing | src/components/dashboard/CampaignTable.tsx:241-249 | a click opens the editor with the current target, except on a local-services row or a maximize target without value, and has no other effect |
| LsaCampaignTable.Table.ChangeInput | src/components/dashboard/CampaignTable.tsx:215-218 | typing replaces the edited row's text and has no other effect |
| LsaCampaignTable.Table.HandleTargetEdit | src/components/dashboard/CampaignTable.tsx:104-149 | text that is no number changes nothing; otherwise the editor closes, the routed request (if any) is posted, and after a successful reply `onUpdateTarget` gets the typed value and the page reloads |
| LsaCampaignTable.Table.PressIncrement | src/components/dashboard/CampaignTable.tsx:189-196 | with a truthy target "+" submits the target raised by one step through the edit handler: it is posted when the strategy names an endpoint, and on a successful reply `onUpdateTarget` is told the new value (when given) and the page reloads; otherwise nothing happens |
| LsaCampaignTable.Table.PressDecrement | src/components/dashboard/CampaignTable.tsx:198-205 | with a truthy target "-" submits the target lowered by one step but at least one step through the edit handler: it is posted when the strategy names an endpoint, and on a successful reply `onUpdateTarget` is told the new value (when given) and the page reloads; otherwise nothing happens |
| CampaignTable.UnknownFieldKeepsOrder | src/components/Dashboard/CampaignTable.tsx:50-51 | a stored sort field that is not a numeric property or the name leaves the records in the order they came |
| CampaignTable.AgreesWithLsaTable | src/components/Dashboard/CampaignTable.tsx:38-54 | on every column but calls and messages the two tables order campaigns identically |
| CampaignTable.Table.constructor | src/components/Dashboard/CampaignTable.tsx:32-34 | the table starts with no row being edited and nothing posted or updated |
| CampaignTable.Table.Render | src/components/Dashboard/CampaignTable.tsx:129-202 | the edited row shows its input and any other row its caption |
| CampaignTable.Table.StartEditing | src/components/Dashboard/CampaignTable.tsx:177-187 | a click opens the editor with the current target unless it is a maximize target without value, and has no other effect |
| CampaignTable.Table.ChangeInput | src/components/Dashboard/CampaignTable.tsx:162-165 | typing replaces the edited row's text and has no other effect |
| CampaignTable.Table.HandleTargetEdit | src/components/Dashboard/CampaignTable.tsx:56-127 | text that is no number changes nothing; otherwise the editor closes, the routed request (if any) is posted, and a successful reply leads to one `onUpdateTarget()` call |

## Left out

- Floating point: JavaScript numbers are exact reals. `Math.round(x)` is `floor(x + 1/2)`, `toFixed` rounds half away from zero to a whole number of units, and `/ 1_000_000` is exact; IEEE-754 rounding is not modelled.
- Number formatting: `toString`, `toFixed` text and `Intl` currency formatting are not modelled as characters. Formatted values are kept as the numbers they print, and the currency caption carries its amount.
- Lower-casing covers ASCII letters only; Unicode case mapping is not modelled.
- String order: `localeCompare` and the date-string sorts are modelled as code-unit order on the strings.
- Date normalisation: `new Date(d).toISOString().split('T')[0]` on the dashboard is a function parameter; time zones are not modelled.
- Timestamps are whole milliseconds. `lastUpdated` is reported as that number, not as its ISO text.
- HourlyTrends.GetHourlyTrends: the fallback of `lastUpdated` to `now` is unreachable for a campaign that is reported (it has a current sample), so the model does not produce it.
- Concurrency: the `Promise.all` over accounts in src/pages/api/campaigns.ts and over campaigns in src/pages/api/google-ads/hourly-trends.ts run as sequential loops.
- CampaignsApi.WriteHistory: when several history inserts fail, the error reported (and the 500 message of CampaignsApi.Complete) is that of the earliest failing insert in list order. The source reports whichever rejection settles first.
- CampaignsApi.Handle: when several account fetches fail, the error reported is that of the first failing account in list order. The source reports whichever rejection settles first.
- SQL: queries are functions over the sample sequence. Dialect differences (`date_trunc` against `strftime`) and the database's own failure modes beyond a failed insert or read are not modelled.
- GoogleAds.FromMicros: a text target is modelled with the number it denotes; a text that `Number` cannot read, which JavaScript turns into NaN, is not modelled.
- CpcHistory.Handle: the `hours` query value is an optional number; a non-numeric text, which JavaScript turns into NaN, is modelled as absent.
- Request bodies: values that JavaScript would coerce from text (a numeric string, `parseFloat` of the input box) arrive already parsed, as an optional number.
- UpdateTroas.Handle: the development-only `details` field of the error reply is not modelled.
- Analytics.Growth: a first month of 0 gives no value, where JavaScript prints `Infinity` or `NaN`.
- Analytics.LeadsPerThousand: zero total spend gives no value, where JavaScript prints `Infinity` or `NaN`.
- React effects, timers and page reloads: the dashboard's auto-refresh interval, the two-second wait, `window.location.reload` and console logging are not modelled. A reload is only counted as a recorded effect.
- The dashboard's `handleAccountsChange` and `handleDateRangeChange` only forward to the persisted stores, so they are not modelled.
- JSX markup is not modelled, only the functions the markup calls. In src/components/dashboard/CampaignTable.tsx the rendered table lists the unsorted `campaigns` and the raw `targetCpa` (lines 286 and 309), so `sortCampaigns` and `renderTargetValue` feed nothing on screen; the model still states what they compute.
- The chat assistant, the Salesforce integration, the zustand stores, the UI-only components and layouts, the thin wrappers in src/utils and the logging endpoint are not part of this model. They hold no logic beyond forwarding to libraries and services. The type files shape the datatypes in `Types` and are not modelled as operations.
