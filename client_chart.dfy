/** The clicks-and-impressions bar chart (src/components/dashboard/ClientChart.tsx):
    per-day PPC and LSA counters accumulated from the campaigns and the LSA
    daily points, then projected onto the sorted list of days. */
module ClientChart {
  import opened Wrappers
  import opened Numeric
  import opened Types
  import opened Sorting
  import JsObject

  /** One day's counters in `combinedData`. */
  datatype Day = Day(date: string, ppcClicks: real, ppcImpressions: real, lsaClicks: real, lsaImpressions: real)

  datatype Counter = Clicks | Impressions

  /** Sum of one counter over the campaigns dated `d`, a missing value as 0. */
  function PpcTotal(campaigns: seq<Campaign>, d: string, f: Counter): real {
    if campaigns == [] then 0.0
    else
      var c := campaigns[|campaigns| - 1];
      var x := if c.date != d then 0.0 else if f == Clicks then OrZero(c.clicks) else OrZero(c.impressions);
      PpcTotal(campaigns[..|campaigns| - 1], d, f) + x
  }

  /** Sum of one counter over the LSA points dated `d`. */
  function LsaTotal(points: seq<ChartData>, d: string, f: Counter): real {
    if points == [] then 0.0
    else
      var p := points[|points| - 1];
      var x := if p.date != d then 0.0 else if f == Clicks then p.clicks else p.impressions;
      LsaTotal(points[..|points| - 1], d, f) + x
  }

  /** Day `d` once every campaign and point has been added: all four
      counters are sums, nothing is overwritten. */
  function Expected(campaigns: seq<Campaign>, points: seq<ChartData>, d: string): (r: Day)
    ensures r.date == d
  {
    Day(d, PpcTotal(campaigns, d, Clicks), PpcTotal(campaigns, d, Impressions),
        LsaTotal(points, d, Clicks), LsaTotal(points, d, Impressions))
  }

  ghost function CampaignDates(campaigns: seq<Campaign>): set<string> {
    set c | c in campaigns :: c.date
  }

  ghost function PointDates(points: seq<ChartData>): set<string> {
    set p | p in points :: p.date
  }

  /** A day no campaign falls on has PPC counters 0. */
  lemma {:induction false} PpcTotalAbsent(campaigns: seq<Campaign>, d: string, f: Counter)
    requires d !in CampaignDates(campaigns)
    ensures PpcTotal(campaigns, d, f) == 0.0
  {
    if campaigns != [] {
      var init := campaigns[..|campaigns| - 1];
      assert campaigns[|campaigns| - 1] in campaigns;
      assert CampaignDates(init) <= CampaignDates(campaigns);
      PpcTotalAbsent(init, d, f);
    }
  }

  /** A day no LSA point falls on has LSA counters 0. */
  lemma {:induction false} LsaTotalAbsent(points: seq<ChartData>, d: string, f: Counter)
    requires d !in PointDates(points)
    ensures LsaTotal(points, d, f) == 0.0
  {
    if points != [] {
      var init := points[..|points| - 1];
      assert points[|points| - 1] in points;
      assert PointDates(init) <= PointDates(points);
      LsaTotalAbsent(init, d, f);
    }
  }

  lemma PpcTotalStep(done: seq<Campaign>, c: Campaign, d: string, f: Counter)
    ensures PpcTotal(done + [c], d, f) ==
              PpcTotal(done, d, f) + (if c.date != d then 0.0 else if f == Clicks then OrZero(c.clicks) else OrZero(c.impressions))
  {
    assert (done + [c])[..|done|] == done;
  }

  lemma LsaTotalStep(done: seq<ChartData>, p: ChartData, d: string, f: Counter)
    ensures LsaTotal(done + [p], d, f) ==
              LsaTotal(done, d, f) + (if p.date != d then 0.0 else if f == Clicks then p.clicks else p.impressions)
  {
    assert (done + [p])[..|done|] == done;
  }

  lemma CampaignDatesStep(done: seq<Campaign>, c: Campaign)
    ensures CampaignDates(done + [c]) == CampaignDates(done) + {c.date}
  {
  }

  lemma NoPointDates()
    ensures PointDates([]) == {}
  {
  }

  lemma PointDatesStep(done: seq<ChartData>, p: ChartData)
    ensures PointDates(done + [p]) == PointDates(done) + {p.date}
  {
  }

  /** Invariant of `combinedData` after some campaigns and some points. */
  ghost predicate Accumulated(combined: JsObject.Object<Day>, campaigns: seq<Campaign>, points: seq<ChartData>) {
    && combined.Valid()
    && combined.entries.Keys == CampaignDates(campaigns) + PointDates(points)
    && forall d :: d in combined.entries ==> combined.entries[d] == Expected(campaigns, points, d)
  }

  /** Adding a campaign's counters into its (open) day re-establishes the
      invariant with that campaign counted. */
  lemma CampaignStepKeeps(withDay: JsObject.Object<Day>, done: seq<Campaign>, c: Campaign, day: Day)
    requires withDay.Valid() && withDay.entries.Keys == CampaignDates(done) + {c.date}
    requires forall d :: d in withDay.entries ==> withDay.entries[d] == Expected(done, [], d)
    requires var prior := withDay.entries[c.date];
             day == prior.(ppcClicks := prior.ppcClicks + OrZero(c.clicks),
                          ppcImpressions := prior.ppcImpressions + OrZero(c.impressions))
    ensures Accumulated(withDay.Put(c.date, day), done + [c], [])
  {
    CampaignKeysStep(withDay, done, c);
    CampaignDaysStep(withDay, done, c);
  }

  lemma CampaignKeysStep(withDay: JsObject.Object<Day>, done: seq<Campaign>, c: Campaign)
    requires withDay.Valid() && withDay.entries.Keys == CampaignDates(done) + {c.date}
    ensures
      var day := withDay.entries[c.date];
      var next := withDay.Put(c.date, day.(ppcClicks := day.ppcClicks + OrZero(c.clicks),
                                           ppcImpressions := day.ppcImpressions + OrZero(c.impressions)));
      next.Valid() && next.entries.Keys == CampaignDates(done + [c]) + PointDates([])
  {
    CampaignDatesStep(done, c);
    NoPointDates();
  }

  lemma CampaignDaysStep(withDay: JsObject.Object<Day>, done: seq<Campaign>, c: Campaign)
    requires withDay.Valid() && c.date in withDay.entries
    requires forall d :: d in withDay.entries ==> withDay.entries[d] == Expected(done, [], d)
    ensures
      var day := withDay.entries[c.date];
      var next := withDay.Put(c.date, day.(ppcClicks := day.ppcClicks + OrZero(c.clicks),
                                           ppcImpressions := day.ppcImpressions + OrZero(c.impressions)));
      forall d :: d in next.entries ==> next.entries[d] == Expected(done + [c], [], d)
  {
    var day := withDay.entries[c.date];
    var updated := withDay.entries[c.date := day.(ppcClicks := day.ppcClicks + OrZero(c.clicks),
                                                  ppcImpressions := day.ppcImpressions + OrZero(c.impressions))];
    forall d | d in updated ensures updated[d] == Expected(done + [c], [], d) {
      CampaignDayStep(withDay.entries, done, c, d);
    }
  }

  /** One day after a campaign's counters are added: its own day gains
      them, every other day is as before. */
  lemma CampaignDayStep(entries: map<string, Day>, done: seq<Campaign>, c: Campaign, d: string)
    requires c.date in entries && d in entries
    requires forall d :: d in entries ==> entries[d] == Expected(done, [], d)
    ensures
      var day := entries[c.date];
      var next := entries[c.date := day.(ppcClicks := day.ppcClicks + OrZero(c.clicks),
                                         ppcImpressions := day.ppcImpressions + OrZero(c.impressions))];
      next[d] == Expected(done + [c], [], d)
  {
    PpcTotalStep(done, c, d, Clicks);
    PpcTotalStep(done, c, d, Impressions);
  }

  /** Adding an LSA point's counters into its (open) day re-establishes the
      invariant with that point counted. */
  lemma PointStepKeeps(withDay: JsObject.Object<Day>, campaigns: seq<Campaign>, done: seq<ChartData>, p: ChartData,
                        day: Day)
    requires withDay.Valid() && withDay.entries.Keys == CampaignDates(campaigns) + PointDates(done) + {p.date}
    requires forall d :: d in withDay.entries ==> withDay.entries[d] == Expected(campaigns, done, d)
    requires var prior := withDay.entries[p.date];
             day == prior.(lsaClicks := prior.lsaClicks + p.clicks, lsaImpressions := prior.lsaImpressions + p.impressions)
    ensures Accumulated(withDay.Put(p.date, day), campaigns, done + [p])
  {
    PointKeysStep(withDay, campaigns, done, p);
    PointDaysStep(withDay, campaigns, done, p);
  }

  lemma PointKeysStep(withDay: JsObject.Object<Day>, campaigns: seq<Campaign>, done: seq<ChartData>, p: ChartData)
    requires withDay.Valid() && withDay.entries.Keys == CampaignDates(campaigns) + PointDates(done) + {p.date}
    ensures
      var day := withDay.entries[p.date];
      var next := withDay.Put(p.date, day.(lsaClicks := day.lsaClicks + p.clicks,
                                           lsaImpressions := day.lsaImpressions + p.impressions));
      next.Valid() && next.entries.Keys == CampaignDates(campaigns) + PointDates(done + [p])
  {
    PointDatesStep(done, p);
  }

  lemma PointDaysStep(withDay: JsObject.Object<Day>, campaigns: seq<Campaign>, done: seq<ChartData>, p: ChartData)
    requires withDay.Valid() && p.date in withDay.entries
    requires forall d :: d in withDay.entries ==> withDay.entries[d] == Expected(campaigns, done, d)
    ensures
      var day := withDay.entries[p.date];
      var next := withDay.Put(p.date, day.(lsaClicks := day.lsaClicks + p.clicks,
                                           lsaImpressions := day.lsaImpressions + p.impressions));
      forall d :: d in next.entries ==> next.entries[d] == Expected(campaigns, done + [p], d)
  {
    var day := withDay.entries[p.date];
    var updated := withDay.entries[p.date := day.(lsaClicks := day.lsaClicks + p.clicks,
                                                  lsaImpressions := day.lsaImpressions + p.impressions)];
    forall d | d in updated ensures updated[d] == Expected(campaigns, done + [p], d) {
      PointDayStep(withDay.entries, campaigns, done, p, d);
    }
  }

  /** One day after a point's counters are added: its own day gains them,
      every other day is as before. */
  lemma PointDayStep(entries: map<string, Day>, campaigns: seq<Campaign>, done: seq<ChartData>, p: ChartData, d: string)
    requires p.date in entries && d in entries
    requires forall d :: d in entries ==> entries[d] == Expected(campaigns, done, d)
    ensures
      var day := entries[p.date];
      var next := entries[p.date := day.(lsaClicks := day.lsaClicks + p.clicks,
                                         lsaImpressions := day.lsaImpressions + p.impressions)];
      next[d] == Expected(campaigns, done + [p], d)
  {
    LsaTotalStep(done, p, d, Clicks);
    LsaTotalStep(done, p, d, Impressions);
  }

  /** `if (!combinedData[date]) combinedData[date] = {date, 0, 0, 0, 0}`. */
  method OpenDay(combined: JsObject.Object<Day>, campaigns: seq<Campaign>, points: seq<ChartData>, date: string)
    returns (next: JsObject.Object<Day>)
    requires Accumulated(combined, campaigns, points)
    ensures next.Valid() && next.entries.Keys == combined.entries.Keys + {date}
    ensures forall d :: d in next.entries ==> next.entries[d] == Expected(campaigns, points, d)
  {
    next := combined;
    if date !in next.entries {
      PpcTotalAbsent(campaigns, date, Clicks);
      PpcTotalAbsent(campaigns, date, Impressions);
      LsaTotalAbsent(points, date, Clicks);
      LsaTotalAbsent(points, date, Impressions);
      next := next.Put(date, Day(date, 0.0, 0.0, 0.0, 0.0));
    }
  }

  /** The campaign pass's step: `ppcClicks += clicks || 0` and
      `ppcImpressions += impressions || 0` on the campaign's day. */
  method AddCampaign(combined: JsObject.Object<Day>, done: seq<Campaign>, campaign: Campaign)
    returns (next: JsObject.Object<Day>)
    requires Accumulated(combined, done, [])
    ensures Accumulated(next, done + [campaign], [])
  {
    var date := campaign.date;
    var withDay := OpenDay(combined, done, [], date);
    var day := withDay.entries[date];
    day := day.(ppcClicks := day.ppcClicks + OrZero(campaign.clicks));
    day := day.(ppcImpressions := day.ppcImpressions + OrZero(campaign.impressions));
    CampaignStepKeeps(withDay, done, campaign, day);
    next := withDay.Put(date, day);
  }

  /** The LSA pass's step: `lsaClicks += clicks || 0` and
      `lsaImpressions += impressions || 0` on the point's day. */
  method AddPoint(combined: JsObject.Object<Day>, campaigns: seq<Campaign>, done: seq<ChartData>, point: ChartData)
    returns (next: JsObject.Object<Day>)
    requires Accumulated(combined, campaigns, done)
    ensures Accumulated(next, campaigns, done + [point])
  {
    var date := point.date;
    var withDay := OpenDay(combined, campaigns, done, date);
    var day := withDay.entries[date];
    day := day.(lsaClicks := day.lsaClicks + point.clicks);
    day := day.(lsaImpressions := day.lsaImpressions + point.impressions);
    PointStepKeeps(withDay, campaigns, done, point, day);
    next := withDay.Put(date, day);
  }

  /** The chart's labels and its four datasets, in the order the chart
      lists them. */
  datatype Chart = Chart(labels: seq<string>, ppcClicks: seq<real>, lsaClicks: seq<real>,
                         ppcImpressions: seq<real>, lsaImpressions: seq<real>)

  /** Both passes, then `Object.keys(combinedData).sort()` and one
      `sortedDates.map(...)` per dataset.  `lsaDaily` is `None` when the
      component has no LSA metrics. */
  method BuildChart(campaigns: seq<Campaign>, lsaDaily: Option<seq<ChartData>>) returns (chart: Chart)
    ensures SortedBy(chart.labels, JsObject.KeyLeq) && NoDups(chart.labels)
    ensures forall d :: d in chart.labels <==> d in CampaignDates(campaigns) || d in PointDates(lsaDaily.GetOr([]))
    ensures |chart.ppcClicks| == |chart.lsaClicks| == |chart.ppcImpressions| == |chart.lsaImpressions| == |chart.labels|
    ensures forall i :: 0 <= i < |chart.labels| ==>
              && chart.ppcClicks[i] == PpcTotal(campaigns, chart.labels[i], Clicks)
              && chart.lsaClicks[i] == LsaTotal(lsaDaily.GetOr([]), chart.labels[i], Clicks)
              && chart.ppcImpressions[i] == PpcTotal(campaigns, chart.labels[i], Impressions)
              && chart.lsaImpressions[i] == LsaTotal(lsaDaily.GetOr([]), chart.labels[i], Impressions)
  {
    var combined := JsObject.Empty<Day>();
    assert CampaignDates([]) == {} && PointDates([]) == {};
    var j := 0;
    while j < |campaigns|
      invariant 0 <= j <= |campaigns|
      invariant Accumulated(combined, campaigns[..j], [])
    {
      assert campaigns[..j + 1] == campaigns[..j] + [campaigns[j]];
      combined := AddCampaign(combined, campaigns[..j], campaigns[j]);
      j := j + 1;
    }
    assert campaigns[..j] == campaigns;

    var points := lsaDaily.GetOr([]);
    var i := 0;
    while i < |points|
      invariant 0 <= i <= |points|
      invariant Accumulated(combined, campaigns, points[..i])
    {
      assert points[..i + 1] == points[..i] + [points[i]];
      combined := AddPoint(combined, campaigns, points[..i], points[i]);
      i := i + 1;
    }
    assert points[..i] == points;

    var sortedDates := JsObject.SortedKeys(combined);
    chart := Chart(
      sortedDates,
      seq(|sortedDates|, k requires 0 <= k < |sortedDates| => combined.entries[sortedDates[k]].ppcClicks),
      seq(|sortedDates|, k requires 0 <= k < |sortedDates| => combined.entries[sortedDates[k]].lsaClicks),
      seq(|sortedDates|, k requires 0 <= k < |sortedDates| => combined.entries[sortedDates[k]].ppcImpressions),
      seq(|sortedDates|, k requires 0 <= k < |sortedDates| => combined.entries[sortedDates[k]].lsaImpressions));
  }
}
