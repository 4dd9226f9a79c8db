/** The `CPCHistory` table the campaigns endpoint writes and the CPC-history
    and hourly-trends endpoints read.  Rows are only ever added. */
module History {

  /** One stored row; `timestamp` is the insertion time in milliseconds. */
  datatype Sample = Sample(campaignId: string, accountId: string, cpc: real, cost: real, timestamp: int)

  const MinuteMs: int := 60 * 1000
  const HourMs: int := 60 * MinuteMs

  /** SQL `date_trunc('hour', timestamp)` on a millisecond timestamp. */
  function Hour(timestamp: int): (h: int)
    ensures h <= timestamp < h + HourMs
    ensures h % HourMs == 0
  {
    timestamp - timestamp % HourMs
  }

  /** The cpc column of some rows, in order. */
  function Cpcs(samples: seq<Sample>): (xs: seq<real>)
    ensures |xs| == |samples| && forall i :: 0 <= i < |samples| ==> xs[i] == samples[i].cpc
  {
    seq(|samples|, i requires 0 <= i < |samples| => samples[i].cpc)
  }

  /** The cost column of some rows, in order. */
  function Costs(samples: seq<Sample>): (xs: seq<real>)
    ensures |xs| == |samples| && forall i :: 0 <= i < |samples| ==> xs[i] == samples[i].cost
  {
    seq(|samples|, i requires 0 <= i < |samples| => samples[i].cost)
  }

  /** The table itself; the clock stamps each insert with `now`. */
  class Store {
    var samples: seq<Sample>

    constructor()
      ensures samples == []
    {
      samples := [];
    }

    /** `prisma.cPCHistory.create({data})`: one row is appended. */
    method Create(campaignId: string, accountId: string, cpc: real, cost: real, now: int)
      modifies this
      ensures samples == old(samples) + [Sample(campaignId, accountId, cpc, cost, now)]
    {
      samples := samples + [Sample(campaignId, accountId, cpc, cost, now)];
    }
  }
}
