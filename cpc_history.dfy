/** The CPC-history endpoint (src/pages/api/campaigns/cpc-history.ts): POST
    stores one sample, GET returns a campaign's hourly averages over a
    look-back window, newest hour first. */
module CpcHistory {
  import opened Wrappers
  import opened Numeric
  import opened Sorting
  import opened History
  import opened Types

  /** One row of the GET answer: a truncated hour and that hour's averages. */
  datatype Bucket = Bucket(hour: int, avgCpc: real, avgCost: real)

  datatype Response =
    | Stored
    | Buckets(buckets: seq<Bucket>)
    | Error(status: nat, message: string)

  /** The POST body. */
  datatype PostBody = PostBody(campaignId: string, accountId: string, cpc: real, cost: real)

  const DefaultHours: real := 24.0

  /** The look-back cutoff: `hours` defaults to 24 when the query has none. */
  function Cutoff(now: int, hours: Option<real>): (c: real)
    ensures hours.None? ==> c == (now - 24 * HourMs) as real
    ensures hours.Some? ==> c == now as real - hours.value * HourMs as real
  {
    now as real - hours.GetOr(DefaultHours) * HourMs as real
  }

  /** `String(campaignId)` of the query parameter. */
  function IdText(campaignId: Option<string>): string {
    campaignId.GetOr("undefined")
  }

  /** The rows the `WHERE` clause keeps, in table order. */
  function Selected(samples: seq<Sample>, campaignId: string, cutoff: real): (r: seq<Sample>)
    ensures |r| <= |samples|
    ensures forall s :: s in r <==> s in samples && s.campaignId == campaignId && s.timestamp as real >= cutoff
  {
    if samples == [] then []
    else
      var init := samples[..|samples| - 1];
      var last := samples[|samples| - 1];
      assert samples == init + [last];
      Selected(init, campaignId, cutoff)
      + (if last.campaignId == campaignId && last.timestamp as real >= cutoff then [last] else [])
  }

  /** The rows of one truncated hour, in table order. */
  function InHour(samples: seq<Sample>, h: int): (r: seq<Sample>)
    ensures forall s :: s in r <==> s in samples && Hour(s.timestamp) == h
  {
    if samples == [] then []
    else
      var init := samples[..|samples| - 1];
      var last := samples[|samples| - 1];
      assert samples == init + [last];
      InHour(init, h) + (if Hour(last.timestamp) == h then [last] else [])
  }

  /** The truncated hours of a list of rows. */
  function HoursOf(samples: seq<Sample>): (hs: seq<int>)
    ensures |hs| == |samples| && forall i :: 0 <= i < |samples| ==> hs[i] == Hour(samples[i].timestamp)
  {
    seq(|samples|, i requires 0 <= i < |samples| => Hour(samples[i].timestamp))
  }

  predicate Later(a: int, b: int) {
    a >= b
  }

  lemma LaterTotalPreorder()
    ensures TotalPreorder(Later)
  {
  }

  lemma HoursOfMembers(sel: seq<Sample>, h: int)
    ensures h in HoursOf(sel) <==> exists s :: s in sel && Hour(s.timestamp) == h
  {
    if exists s :: s in sel && Hour(s.timestamp) == h {
      var s :| s in sel && Hour(s.timestamp) == h;
      var i :| 0 <= i < |sel| && sel[i] == s;
      assert HoursOf(sel)[i] == h;
    }
  }

  lemma SortedDistinctDescending(hs: seq<int>)
    requires SortedBy(hs, Later) && NoDups(hs)
    ensures forall i, j :: 0 <= i < j < |hs| ==> hs[i] > hs[j]
  {
    forall i, j | 0 <= i < j < |hs| ensures hs[i] > hs[j] {
      assert Later(hs[i], hs[j]) && hs[i] != hs[j];
    }
  }

  /** The hours of a campaign's rows, each once, newest first. */
  function DescendingHours(sel: seq<Sample>): (hs: seq<int>)
    ensures forall i, j :: 0 <= i < j < |hs| ==> hs[i] > hs[j]
    ensures forall h :: h in hs <==> exists s :: s in sel && Hour(s.timestamp) == h
  {
    var distinct := Distinct(HoursOf(sel));
    var hs := Sort(distinct, Later);
    LaterTotalPreorder();
    SortSorted(distinct, Later);
    PermutationNoDups(distinct, hs);
    SortedDistinctDescending(hs);
    forall h ensures h in hs <==> exists s :: s in sel && Hour(s.timestamp) == h {
      assert h in hs <==> h in multiset(hs);
      assert h in distinct <==> h in multiset(distinct);
      HoursOfMembers(sel, h);
    }
    hs
  }

  lemma GroupNonEmpty(sel: seq<Sample>, h: int)
    requires h in DescendingHours(sel)
    ensures InHour(sel, h) != []
  {
    var s :| s in sel && Hour(s.timestamp) == h;
    assert s in InHour(sel, h);
  }

  /** One hour's averages over a campaign's kept rows. */
  function BucketOf(sel: seq<Sample>, h: int): (b: Bucket)
    requires InHour(sel, h) != []
    ensures b.hour == h
  {
    Bucket(h, Mean(Cpcs(InHour(sel, h))), Mean(Costs(InHour(sel, h))))
  }

  /** The GET query: `GROUP BY date_trunc('hour', timestamp) ORDER BY hour
      DESC` over the campaign's rows at or after the cutoff, averaging cpc
      and cost per hour.  Every hour with a kept row has exactly one bucket,
      no other bucket exists, and hours strictly decrease. */
  function HourlyBuckets(samples: seq<Sample>, campaignId: string, cutoff: real): (bs: seq<Bucket>)
    ensures forall i, j :: 0 <= i < j < |bs| ==> bs[i].hour > bs[j].hour
    ensures |bs| == |DescendingHours(Selected(samples, campaignId, cutoff))|
    ensures forall i :: 0 <= i < |bs| ==> bs[i].hour == DescendingHours(Selected(samples, campaignId, cutoff))[i]
    ensures forall i :: 0 <= i < |bs| ==>
              InHour(Selected(samples, campaignId, cutoff), bs[i].hour) != []
              && bs[i] == BucketOf(Selected(samples, campaignId, cutoff), bs[i].hour)
  {
    var sel := Selected(samples, campaignId, cutoff);
    var hs := DescendingHours(sel);
    forall i | 0 <= i < |hs| ensures InHour(sel, hs[i]) != [] {
      GroupNonEmpty(sel, hs[i]);
    }
    var bs := seq(|hs|, i requires 0 <= i < |hs| => BucketOf(sel, hs[i]));
    bs
  }

  /** Every kept row is represented: its hour has a bucket. */
  lemma BucketsCoverRows(samples: seq<Sample>, campaignId: string, cutoff: real, s: Sample)
    requires s in samples && s.campaignId == campaignId && s.timestamp as real >= cutoff
    ensures exists i :: 0 <= i < |HourlyBuckets(samples, campaignId, cutoff)|
                        && HourlyBuckets(samples, campaignId, cutoff)[i].hour == Hour(s.timestamp)
  {
    var sel := Selected(samples, campaignId, cutoff);
    var hs := DescendingHours(sel);
    assert s in sel;
    assert Hour(s.timestamp) in hs;
    var i :| 0 <= i < |hs| && hs[i] == Hour(s.timestamp);
    var bs := HourlyBuckets(samples, campaignId, cutoff);
    assert bs[i].hour == Hour(s.timestamp);
  }

  /** The endpoint.  `dbOk` is whether the database call succeeds; `now`
      stamps a stored row and anchors the look-back window.  No request
      removes a row. */
  method Handle(store: Store, verb: HttpMethod, body: PostBody, campaignId: Option<string>,
                hours: Option<real>, now: int, dbOk: bool) returns (r: Response)
    modifies store
    ensures old(store.samples) <= store.samples
    ensures verb == Post && dbOk ==>
              r == Stored
              && store.samples == old(store.samples) + [Sample(body.campaignId, body.accountId, body.cpc, body.cost, now)]
    ensures verb == Post && !dbOk ==>
              r == Error(500, "Failed to store CPC history") && store.samples == old(store.samples)
    ensures verb == Get ==>
              store.samples == old(store.samples)
              && r == if dbOk then Buckets(HourlyBuckets(store.samples, IdText(campaignId), Cutoff(now, hours)))
                      else Error(500, "Failed to fetch CPC history")
    ensures verb != Post && verb != Get ==>
              r == Error(405, "Method not allowed") && store.samples == old(store.samples)
  {
    if verb == Post {
      if dbOk {
        store.Create(body.campaignId, body.accountId, body.cpc, body.cost, now);
        r := Stored;
      } else {
        r := Error(500, "Failed to store CPC history");
      }
    } else if verb == Get {
      if dbOk {
        r := Buckets(HourlyBuckets(store.samples, IdText(campaignId), Cutoff(now, hours)));
      } else {
        r := Error(500, "Failed to fetch CPC history");
      }
    } else {
      r := Error(405, "Method not allowed");
    }
  }
}
