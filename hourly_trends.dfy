/** The hourly-trends endpoint (src/pages/api/google-ads/hourly-trends.ts):
    for every campaign with a recent history row, the average cpc of the
    last 15 minutes against the 15 minutes before, a rounded percentage
    change and a direction gated by a 2% threshold. */
module HourlyTrends {
  import opened Wrappers
  import opened Numeric
  import opened Sorting
  import opened History
  import opened Types

  /** A row of the current window: the campaign's, at or after 15 minutes
      ago (no upper bound), with a positive cpc. */
  predicate InCurrent(s: Sample, campaignId: string, now: int) {
    s.campaignId == campaignId && s.timestamp >= now - 15 * MinuteMs && s.cpc > 0.0
  }

  /** A row of the previous window: the campaign's, in [now - 30 min,
      now - 15 min), with a positive cpc. */
  predicate InPrevious(s: Sample, campaignId: string, now: int) {
    s.campaignId == campaignId && now - 30 * MinuteMs <= s.timestamp < now - 15 * MinuteMs && s.cpc > 0.0
  }

  /** A row that makes its campaign active: any cpc, at or after 30
      minutes ago. */
  predicate Recent(s: Sample, now: int) {
    s.timestamp >= now - 30 * MinuteMs
  }

  function CurrentWindow(samples: seq<Sample>, campaignId: string, now: int): (w: seq<Sample>)
    ensures forall s :: s in w <==> s in samples && InCurrent(s, campaignId, now)
  {
    if samples == [] then []
    else
      var last := samples[|samples| - 1];
      assert samples == samples[..|samples| - 1] + [last];
      CurrentWindow(samples[..|samples| - 1], campaignId, now)
      + (if InCurrent(last, campaignId, now) then [last] else [])
  }

  function PreviousWindow(samples: seq<Sample>, campaignId: string, now: int): (w: seq<Sample>)
    ensures forall s :: s in w <==> s in samples && InPrevious(s, campaignId, now)
  {
    if samples == [] then []
    else
      var last := samples[|samples| - 1];
      assert samples == samples[..|samples| - 1] + [last];
      PreviousWindow(samples[..|samples| - 1], campaignId, now)
      + (if InPrevious(last, campaignId, now) then [last] else [])
  }

  /** `Number(avg_cpc || 0)`: the window's average cpc, 0 for an empty
      window.  With only positive cpcs it is positive exactly when the
      window has a row. */
  function AvgCpc(window: seq<Sample>): (a: real)
    ensures window == [] ==> a == 0.0
    ensures (forall s :: s in window ==> s.cpc > 0.0) ==> (a > 0.0 <==> window != [])
  {
    if window == [] then 0.0
    else
      var xs := Cpcs(window);
      assert (forall s :: s in window ==> s.cpc > 0.0) ==> Sum(xs) > 0.0 by {
        if forall s :: s in window ==> s.cpc > 0.0 {
          assert forall i :: 0 <= i < |xs| ==> window[i] in window;
          SumPositive(xs);
        }
      }
      Mean(xs)
  }

  /** `MAX(timestamp)` of a non-empty window. */
  function LatestTimestamp(window: seq<Sample>): (t: int)
    requires window != []
    ensures exists i :: 0 <= i < |window| && window[i].timestamp == t
    ensures forall i :: 0 <= i < |window| ==> window[i].timestamp <= t
  {
    if |window| == 1 then window[0].timestamp
    else
      var rest := LatestTimestamp(window[1..]);
      assert forall i :: 1 <= i < |window| ==> window[i] == window[1..][i - 1];
      if window[0].timestamp >= rest then window[0].timestamp else rest
  }

  /** The percentage change, to 2 decimals when there is a previous value;
      otherwise 100 for any current value and 0 for none.  Its sign is the
      sign of the change, and it is off from the exact change by at most
      half a unit in the last place. */
  function Trend(cur: real, prev: real): (t: real)
    ensures t > 0.0 ==> cur > prev
    ensures t < 0.0 ==> cur < prev
    ensures cur == prev ==> t == 0.0
    ensures prev > 0.0 ==> -0.005 <= t - (cur - prev) / prev * 100.0 <= 0.005
    ensures prev <= 0.0 ==> (t == 100.0 <==> cur > 0.0) && (t == 0.0 <==> cur <= 0.0)
  {
    if prev > 0.0 then
      var x := (cur - prev) / prev * 100.0;
      assert cur > prev <==> x > 0.0;
      assert cur < prev <==> x < 0.0;
      var t := ToFixed(x, 2);
      assert Scale(2) == 100.0;
      t
    else if cur > 0.0 then 100.0
    else 0.0
  }

  /** `stable` below the 2% threshold, else `up` when the current value is
      higher and `down` otherwise. */
  function Direction(trend: real, cur: real, prev: real): TrendDirection {
    if trend >= 2.0 || trend <= -2.0 then (if cur > prev then Up else Down)
    else Stable
  }

  /** The direction is exactly the threshold test on the reported trend:
      `up` iff the trend is at least 2, `down` iff at most -2. */
  lemma DirectionThreshold(cur: real, prev: real)
    ensures var t := Trend(cur, prev);
      && (Direction(t, cur, prev) == Up <==> t >= 2.0)
      && (Direction(t, cur, prev) == Down <==> t <= -2.0)
      && (Direction(t, cur, prev) == Stable <==> -2.0 < t < 2.0)
  {
  }

  datatype CpcReport = CpcReport(current: real, previous: real, trend: real, direction: TrendDirection)

  /** One campaign's entry; `lastUpdated` is in milliseconds. */
  datatype TrendEntry = TrendEntry(cpc: CpcReport, lastUpdated: int)

  /** A campaign's entry, present only when its current average is
      positive, i.e. when the current window has a row. */
  function EntryFor(samples: seq<Sample>, campaignId: string, now: int): (e: Option<TrendEntry>)
    ensures e.Some? <==> exists s :: s in samples && InCurrent(s, campaignId, now)
    ensures e.Some? ==>
      var cur := AvgCpc(CurrentWindow(samples, campaignId, now));
      var prev := AvgCpc(PreviousWindow(samples, campaignId, now));
      && e.value.cpc == CpcReport(ToFixed(cur, 2), ToFixed(prev, 2), Trend(cur, prev),
                                  Direction(Trend(cur, prev), cur, prev))
      && (exists s :: s in samples && InCurrent(s, campaignId, now) && s.timestamp == e.value.lastUpdated)
      && (forall s :: s in samples && InCurrent(s, campaignId, now) ==> s.timestamp <= e.value.lastUpdated)
  {
    var current := CurrentWindow(samples, campaignId, now);
    var cur := AvgCpc(current);
    var prev := AvgCpc(PreviousWindow(samples, campaignId, now));
    var trend := Trend(cur, prev);
    CurrentPositive(samples, campaignId, now);
    if cur > 0.0 then
      var last := LatestTimestamp(current);
      LatestInWindow(current);
      Some(TrendEntry(CpcReport(ToFixed(cur, 2), ToFixed(prev, 2), trend, Direction(trend, cur, prev)), last))
    else None
  }

  /** The current average is positive exactly when the window has a row. */
  lemma CurrentPositive(samples: seq<Sample>, campaignId: string, now: int)
    ensures AvgCpc(CurrentWindow(samples, campaignId, now)) > 0.0
        <==> exists s :: s in samples && InCurrent(s, campaignId, now)
  {
    var current := CurrentWindow(samples, campaignId, now);
    if current != [] {
      assert current[0] in current;
    }
  }

  /** The latest stamp belongs to a row of the window and bounds every row. */
  lemma LatestInWindow(window: seq<Sample>)
    requires window != []
    ensures (exists s :: s in window && s.timestamp == LatestTimestamp(window))
    ensures forall s :: s in window ==> s.timestamp <= LatestTimestamp(window)
  {
    var i :| 0 <= i < |window| && window[i].timestamp == LatestTimestamp(window);
    assert window[i] in window;
    forall s | s in window ensures s.timestamp <= LatestTimestamp(window) {
      var j :| 0 <= j < |window| && window[j] == s;
    }
  }

  /** `SELECT DISTINCT "campaignId" ... WHERE timestamp >= thirtyMinutesAgo`. */
  function ActiveCampaigns(samples: seq<Sample>, now: int): (ids: seq<string>)
    ensures NoDups(ids)
    ensures forall id :: id in ids <==> exists s :: s in samples && Recent(s, now) && s.campaignId == id
  {
    var recentIds := RecentIds(samples, now);
    Distinct(recentIds)
  }

  function RecentIds(samples: seq<Sample>, now: int): (ids: seq<string>)
    ensures forall id :: id in ids <==> exists s :: s in samples && Recent(s, now) && s.campaignId == id
  {
    if samples == [] then []
    else
      var last := samples[|samples| - 1];
      var init := samples[..|samples| - 1];
      assert samples == init + [last];
      RecentIds(init, now) + (if Recent(last, now) then [last.campaignId] else [])
  }

  /** A campaign with a current-window row is one of the active ones, so
      the 30-minute pre-selection loses no entry. */
  lemma CurrentIsActive(samples: seq<Sample>, campaignId: string, now: int)
    requires EntryFor(samples, campaignId, now).Some?
    ensures campaignId in ActiveCampaigns(samples, now)
  {
    var s :| s in samples && InCurrent(s, campaignId, now);
    assert Recent(s, now);
  }

  datatype Response =
    | Trends(trends: map<string, TrendEntry>)
    | Error(status: nat, message: string, detail: string)

  /** The endpoint over the history rows.  `dbError` is the error a
      database query raises, if any. */
  method GetHourlyTrends(samples: seq<Sample>, verb: HttpMethod, now: int, dbError: Option<string>)
    returns (r: Response)
    ensures verb != Get ==> r == Error(405, "Method not allowed", "")
    ensures verb == Get && dbError.Some? ==> r == Error(500, "Internal server error", dbError.value)
    ensures verb == Get && dbError.None? ==>
      && r.Trends?
      && (forall id :: id in r.trends <==> EntryFor(samples, id, now).Some?)
      && (forall id :: id in r.trends ==> r.trends[id] == EntryFor(samples, id, now).value)
  {
    if verb != Get {
      return Error(405, "Method not allowed", "");
    }
    if dbError.Some? {
      return Error(500, "Internal server error", dbError.value);
    }
    var campaigns := ActiveCampaigns(samples, now);
    var hourlyTrends := CollectTrends(campaigns, id => EntryFor(samples, id, now));
    forall id | EntryFor(samples, id, now).Some? ensures id in hourlyTrends {
      CurrentIsActive(samples, id, now);
    }
    r := Trends(hourlyTrends);
  }

  /** The handler's loop over the active campaigns: each campaign whose
      entry exists is filed under its id; `entry` computes a campaign's
      entry. */
  method CollectTrends(campaigns: seq<string>, entry: string -> Option<TrendEntry>)
    returns (hourlyTrends: map<string, TrendEntry>)
    ensures forall id :: id in hourlyTrends <==> id in campaigns && entry(id).Some?
    ensures forall id :: id in hourlyTrends ==> hourlyTrends[id] == entry(id).value
  {
    hourlyTrends := map[];
    var i := 0;
    while i < |campaigns|
      invariant 0 <= i <= |campaigns|
      invariant forall id :: id in hourlyTrends <==> id in campaigns[..i] && entry(id).Some?
      invariant forall id :: id in hourlyTrends ==> hourlyTrends[id] == entry(id).value
    {
      var campaignId := campaigns[i];
      var e := entry(campaignId);
      if e.Some? {
        hourlyTrends := hourlyTrends[campaignId := e.value];
      }
      assert campaigns[..i + 1] == campaigns[..i] + [campaignId];
      i := i + 1;
    }
    assert campaigns[..i] == campaigns;
  }

  /** Rows at 5 and 20 minutes ago with cpc 2 and 1: current 2, previous 1,
      a 100% rise, direction `up`. */
  lemma RisingExample(now: int)
    ensures var samples := [Sample("c", "a", 1.0, 0.0, now - 20 * MinuteMs),
                            Sample("c", "a", 2.0, 0.0, now - 5 * MinuteMs)];
      EntryFor(samples, "c", now) == Some(TrendEntry(CpcReport(2.0, 1.0, 100.0, Up), now - 5 * MinuteMs))
  {
    var samples := [Sample("c", "a", 1.0, 0.0, now - 20 * MinuteMs),
                    Sample("c", "a", 2.0, 0.0, now - 5 * MinuteMs)];
    RisingWindows(now);
    AvgOfOne(samples[1]);
    AvgOfOne(samples[0]);
    assert Trend(2.0, 1.0) == 100.0 by {
      assert Scale(2) == 100.0 && FixedUnits(100.0, 2) == 10000;
    }
    assert ToFixed(2.0, 2) == 2.0 && ToFixed(1.0, 2) == 1.0 by {
      assert Scale(2) == 100.0 && FixedUnits(2.0, 2) == 200 && FixedUnits(1.0, 2) == 100;
    }
    EntryOfLoneCurrent(samples, "c", now, samples[1]);
  }

  /** The two windows of the rising example hold one row each. */
  lemma RisingWindows(now: int)
    ensures var samples := [Sample("c", "a", 1.0, 0.0, now - 20 * MinuteMs),
                            Sample("c", "a", 2.0, 0.0, now - 5 * MinuteMs)];
      && CurrentWindow(samples, "c", now) == [samples[1]]
      && PreviousWindow(samples, "c", now) == [samples[0]]
  {
    var samples := [Sample("c", "a", 1.0, 0.0, now - 20 * MinuteMs),
                    Sample("c", "a", 2.0, 0.0, now - 5 * MinuteMs)];
    assert samples[..1] == [samples[0]] && [samples[0]][..0] == [];
    assert CurrentWindow([samples[0]], "c", now) == [];
    assert PreviousWindow([samples[0]], "c", now) == [samples[0]];
  }

  /** The average of a single row is its cpc. */
  lemma AvgOfOne(s: Sample)
    ensures AvgCpc([s]) == s.cpc
  {
    assert Cpcs([s]) == [s.cpc] && [s.cpc][..0] == [];
    assert Sum([s.cpc]) == s.cpc;
    assert Mean([s.cpc]) == s.cpc;
  }

  /** With a current window of one row with a positive cpc, the entry
      reports that row's stamp and the two averages. */
  lemma EntryOfLoneCurrent(samples: seq<Sample>, campaignId: string, now: int, s: Sample)
    requires CurrentWindow(samples, campaignId, now) == [s] && s.cpc > 0.0
    ensures var cur := s.cpc;
      var prev := AvgCpc(PreviousWindow(samples, campaignId, now));
      EntryFor(samples, campaignId, now)
      == Some(TrendEntry(CpcReport(ToFixed(cur, 2), ToFixed(prev, 2), Trend(cur, prev),
                                   Direction(Trend(cur, prev), cur, prev)), s.timestamp))
  {
    AvgOfOne(s);
  }

  /** A single row at 5 minutes ago and nothing before: previous 0, the
      trend 100 and direction `up` -- not `stable` with equal values. */
  lemma LoneSampleExample(now: int)
    ensures var samples := [Sample("c", "a", 1.0, 0.0, now - 5 * MinuteMs)];
      EntryFor(samples, "c", now) == Some(TrendEntry(CpcReport(1.0, 0.0, 100.0, Up), now - 5 * MinuteMs))
  {
    var samples := [Sample("c", "a", 1.0, 0.0, now - 5 * MinuteMs)];
    assert CurrentWindow(samples, "c", now) == samples && PreviousWindow(samples, "c", now) == [] by {
      assert samples[..0] == [];
    }
    AvgOfOne(samples[0]);
    assert ToFixed(1.0, 2) == 1.0 && ToFixed(0.0, 2) == 0.0 by {
      assert Scale(2) == 100.0 && FixedUnits(1.0, 2) == 100 && FixedUnits(0.0, 2) == 0;
    }
  }

  /** 1.00 against 1.01 is a change under 2%: `stable`; against 0.95 it is
      over 5%: `up`. */
  lemma ThresholdExamples()
    ensures Direction(Trend(1.0, 1.01), 1.0, 1.01) == Stable
    ensures Direction(Trend(1.0, 0.95), 1.0, 0.95) == Up
  {
    DirectionThreshold(1.0, 1.01);
    DirectionThreshold(1.0, 0.95);
  }
}
