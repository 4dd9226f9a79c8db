/** The campaigns endpoint (src/pages/api/campaigns.ts): every account's
    platform campaigns, then one synthetic record for the local-services
    channel when it is enabled, then one CPC-history row per campaign other
    than the synthetic one. */
module CampaignsApi {
  import opened Wrappers
  import opened Numeric
  import opened Types
  import opened History
  import GoogleAds
  import Lsa
  import Calendar
  import HourlyTrends

  /** The id that marks the synthetic local-services record. */
  const HarvestId: string := "lsa-harvest"

  /** A platform record as the response carries it: the fields
      `formatCampaignResponse` set, and no cpc, trend or conversion actions. */
  function FromPlatform(c: GoogleAds.Campaign): (r: Campaign)
    ensures r.id == c.id && r.accountId == Some(c.accountId)
    ensures r.cost == Some(c.cost) && r.cpc.None? && r.cpcTrend.None? && r.conversionActions.None?
  {
    Campaign(c.id, c.name, c.status, Some(c.cost), Some(c.clicks), Some(c.conversions), Some(c.impressions),
             c.date, Some(c.accountId), c.targetCpa, c.targetRoas, Some(c.biddingStrategyType.Name()),
             Some(c.maximizeConversionValue), None, None, None, None, false, None, None)
  }

  function FromPlatformAll(cs: seq<GoogleAds.Campaign>): (rs: seq<Campaign>)
    ensures |rs| == |cs| && forall i :: 0 <= i < |cs| ==> rs[i] == FromPlatform(cs[i])
  {
    seq(|cs|, i requires 0 <= i < |cs| => FromPlatform(cs[i]))
  }

  /** What one account's `getCampaignStats` call answers; `Fetch` names
      the real call, the lemmas below hold for any answers. */
  type Fetcher = string -> Result<seq<GoogleAds.Campaign>, string>

  /** `getCampaignStats` for each account, with the session's token, the
      requested range and `queryFor(a)`, the platform's answer to account
      `a`'s queries. */
  function Fetch(hasRefreshToken: bool, dateRange: string,
                 queryFor: string -> (string -> Option<seq<GoogleAds.Row>>)): (f: Fetcher)
    ensures forall a :: f(a) == GoogleAds.GetCampaignStats(hasRefreshToken, a, dateRange, queryFor(a))
  {
    a => GoogleAds.GetCampaignStats(hasRefreshToken, a, dateRange, queryFor(a))
  }

  /** `Promise.all(accountIds.map(getCampaignStats)).flat()`: each
      account's records in turn, in the order of `accountIds`; one failing
      account fails the whole list with that account's error. */
  function PlatformCampaigns(accountIds: seq<string>, fetch: Fetcher): (r: Result<seq<Campaign>, string>)
    ensures r.Failure? ==> exists i :: 0 <= i < |accountIds| && fetch(accountIds[i]) == Failure(r.error)
    ensures r.Success? ==> forall c :: c in r.value ==> c.cpc.None? && c.accountId.Some?
  {
    if accountIds == [] then Success([])
    else
      match fetch(accountIds[0])
      case Failure(e) => Failure(e)
      case Success(cs) =>
        match PlatformCampaigns(accountIds[1..], fetch)
        case Failure(e) =>
          var i :| 0 <= i < |accountIds[1..]| && fetch(accountIds[1..][i]) == Failure(e);
          assert fetch(accountIds[i + 1]) == Failure(e);
          Failure(e)
        case Success(after) => Success(FromPlatformAll(cs) + after)
  }

  /** The list is fetched exactly when every account's call succeeds. */
  lemma {:induction false} PlatformSucceeds(accountIds: seq<string>, fetch: Fetcher)
    ensures PlatformCampaigns(accountIds, fetch).Success? <==>
            forall i :: 0 <= i < |accountIds| ==> fetch(accountIds[i]).Success?
  {
    if accountIds != [] {
      PlatformSucceeds(accountIds[1..], fetch);
    }
  }

  /** Each account's records from `getCampaignStats` carry that account's id. */
  lemma FetchOwnAccount(hasRefreshToken: bool, dateRange: string,
                        queryFor: string -> (string -> Option<seq<GoogleAds.Row>>))
    ensures OwnAccounts(Fetch(hasRefreshToken, dateRange, queryFor))
  {
  }

  /** Every record an account answers with carries that account's id. */
  ghost predicate OwnAccounts(fetch: Fetcher)
  {
    forall a :: fetch(a).Success? ==> forall c :: c in fetch(a).value ==> c.accountId == a
  }

  /** Every platform record belongs to one of the requested accounts. */
  lemma {:induction false} PlatformAccounts(accountIds: seq<string>, fetch: Fetcher)
    requires OwnAccounts(fetch)
    ensures PlatformCampaigns(accountIds, fetch).Success? ==>
              forall c :: c in PlatformCampaigns(accountIds, fetch).value ==> c.accountId.value in accountIds
  {
    if accountIds != [] && PlatformCampaigns(accountIds, fetch).Success? {
      PlatformAccounts(accountIds[1..], fetch);
      var cs := fetch(accountIds[0]).value;
      forall c | c in FromPlatformAll(cs) ensures c.accountId.value == accountIds[0] {
        var k :| 0 <= k < |FromPlatformAll(cs)| && FromPlatformAll(cs)[k] == c;
        assert cs[k] in cs;
      }
    }
  }

  /** Whichever account fails, the request reports the one message
      `getCampaignStats` throws. */
  lemma PlatformFailureMessage(accountIds: seq<string>, hasRefreshToken: bool, dateRange: string,
                               queryFor: string -> (string -> Option<seq<GoogleAds.Row>>))
    ensures var r := PlatformCampaigns(accountIds, Fetch(hasRefreshToken, dateRange, queryFor));
            r.Failure? ==> r.error == "Failed to fetch campaign stats"
  {
  }

  /** The synthetic record of the local-services channel: the channel's
      spend as cost and its leads as conversions, no clicks, impressions or
      cpc, a stable trend, and the message and call leads as its two
      conversion actions. */
  function HarvestRecord(m: Lsa.LsaMetrics, harvestLsaId: Option<string>, nowIso: string, now: int): (r: Campaign)
    ensures r.id == HarvestId && r.accountId == harvestLsaId
    ensures r.cost == Some(m.totalSpend) && r.conversions == Some(m.totalLeads)
    ensures r.clicks == Some(0.0) && r.impressions == Some(0.0) && r.cpc == Some(0.0)
    ensures r.cpcTrend.Some? && r.cpcTrend.value.direction == Stable
    ensures r.conversionActions.Some? && |r.conversionActions.value| == 2
    ensures r.conversionActions.value[0].name == "Message Leads" && r.conversionActions.value[0].value == m.messageLeads
    ensures r.conversionActions.value[1].name == "Call Leads" && r.conversionActions.value[1].value == m.callLeads
  {
    Campaign(HarvestId, "Harvest LSA", "ENABLED", Some(m.totalSpend), Some(0.0), Some(m.totalLeads), Some(0.0),
             nowIso, harvestLsaId, None, None, None, None, Some(0.0), Some(CpcTrend(0.0, 0.0, Stable, now)),
             Some([ConversionAction("Message Leads", m.messageLeads, Some("LSA")),
                   ConversionAction("Call Leads", m.callLeads, Some("LSA"))]),
             None, false, None, None)
  }

  /** Whatever `getLSAStats` returned, the synthetic record's two
      conversion actions add up to its conversions. */
  lemma HarvestActionsAddUp(session: Option<Session>, harvestLsaId: Option<string>, response: Option<seq<Lsa.Row>>,
                            m: Lsa.LsaMetrics, nowIso: string, now: int)
    requires Lsa.StatsOutcome(session, harvestLsaId, response, m)
    ensures var r := HarvestRecord(m, harvestLsaId, nowIso, now);
            r.conversionActions.value[0].value + r.conversionActions.value[1].value == r.conversions.value
  {
  }

  /** The campaigns whose id is not the synthetic one, in order. */
  function NonHarvest(cs: seq<Campaign>): (r: seq<Campaign>)
    ensures |r| <= |cs|
    ensures forall c :: c in r <==> c in cs && c.id != HarvestId
  {
    if cs == [] then []
    else
      var last := cs[|cs| - 1];
      assert cs == cs[..|cs| - 1] + [last];
      NonHarvest(cs[..|cs| - 1]) + (if last.id != HarvestId then [last] else [])
  }

  /** A single record passes iff it is not the synthetic one. */
  lemma NonHarvestOne(c: Campaign)
    ensures NonHarvest([c]) == if c.id != HarvestId then [c] else []
  {
    assert [c][..0] == [];
  }

  /** The filter works record by record: it distributes over
      concatenation, so the kept records stay in their order. */
  lemma {:induction false} NonHarvestAppend(a: seq<Campaign>, b: seq<Campaign>)
    ensures NonHarvest(a + b) == NonHarvest(a) + NonHarvest(b)
    decreases |b|
  {
    if b == [] {
      assert a + b == a;
    } else {
      var init := b[..|b| - 1];
      var last := b[|b| - 1];
      assert (a + b)[..|a + b| - 1] == a + init;
      assert (a + b)[|a + b| - 1] == last;
      NonHarvestAppend(a, init);
      var tail := if last.id != HarvestId then [last] else [];
      assert NonHarvest(a + b) == NonHarvest(a + init) + tail;
      assert NonHarvest(b) == NonHarvest(init) + tail;
      ConcatAssoc(NonHarvest(a), NonHarvest(init), tail);
    }
  }

  /** The history row written for one campaign: a missing cpc or cost is
      stored as 0 and a missing account id as the empty string. */
  function SampleOf(c: Campaign, now: int): (s: Sample)
    ensures s.campaignId == c.id && s.timestamp == now
    ensures s.cpc == (if Truthy(c.cpc) then c.cpc.value else 0.0)
    ensures s.cost == (if Truthy(c.cost) then c.cost.value else 0.0)
  {
    Sample(c.id, c.accountId.GetOr(""), OrZero(c.cpc), OrZero(c.cost), now)
  }

  /** The history rows a request writes, one per non-synthetic campaign, in
      the campaigns' order. */
  function HistorySamples(cs: seq<Campaign>, now: int): (ss: seq<Sample>)
    ensures |ss| == |NonHarvest(cs)|
    ensures forall i :: 0 <= i < |ss| ==> ss[i] == SampleOf(NonHarvest(cs)[i], now)
    ensures forall s :: s in ss ==> s.campaignId != HarvestId
  {
    var nh := NonHarvest(cs);
    assert forall i :: 0 <= i < |nh| ==> nh[i] in nh;
    seq(|nh|, i requires 0 <= i < |nh| => SampleOf(nh[i], now))
  }

  /** Platform records carry no cpc, so every history row written for them
      stores cpc 0. */
  lemma PlatformSamplesHaveZeroCpc(cs: seq<Campaign>, now: int)
    requires forall c :: c in cs ==> c.cpc.None?
    ensures forall s :: s in HistorySamples(cs, now) ==> s.cpc == 0.0
  {
    var nh := NonHarvest(cs);
    forall s | s in HistorySamples(cs, now) ensures s.cpc == 0.0 {
      var i :| 0 <= i < |HistorySamples(cs, now)| && HistorySamples(cs, now)[i] == s;
      assert nh[i] in nh;
    }
  }

  /** ... and the hourly trends, which only average positive cpcs, never
      report a campaign whose rows all hold cpc 0. */
  lemma ZeroCpcRowsNeverTrend(samples: seq<Sample>, campaignId: string, now: int)
    requires forall s :: s in samples && s.campaignId == campaignId ==> s.cpc == 0.0
    ensures HourlyTrends.EntryFor(samples, campaignId, now).None?
  {
  }

  /** The rows that reach the table: those whose insert succeeds.
      `insertError(k)` is the outcome of the k-th insert. */
  function Written(ss: seq<Sample>, insertError: nat -> Option<string>): (w: seq<Sample>)
    ensures |w| <= |ss|
    ensures (forall k :: 0 <= k < |ss| ==> insertError(k).None?) ==> w == ss
  {
    if ss == [] then []
    else
      var init := ss[..|ss| - 1];
      assert ss == init + [ss[|ss| - 1]];
      Written(init, insertError) + (if insertError(|ss| - 1).None? then [ss[|ss| - 1]] else [])
  }

  /** The stored rows are exactly the attempted rows whose insert
      succeeded: each successful one is stored, and every stored row is
      one of them. */
  lemma {:induction false} WrittenMembers(ss: seq<Sample>, insertError: nat -> Option<string>)
    ensures forall k :: 0 <= k < |ss| && insertError(k).None? ==> ss[k] in Written(ss, insertError)
    ensures forall s :: s in Written(ss, insertError) ==>
              exists k :: 0 <= k < |ss| && ss[k] == s && insertError(k).None?
  {
    if ss != [] {
      var init := ss[..|ss| - 1];
      WrittenMembers(init, insertError);
      assert Written(ss, insertError)
          == Written(init, insertError) + (if insertError(|ss| - 1).None? then [ss[|ss| - 1]] else []);
      forall k | 0 <= k < |ss| - 1
        ensures ss[k] == init[k]
      {
      }
    }
  }

  /** One more insert adds its row exactly when it succeeds. */
  lemma WrittenStep(ss: seq<Sample>, k: nat, insertError: nat -> Option<string>)
    requires k < |ss|
    ensures Written(ss[..k + 1], insertError)
         == Written(ss[..k], insertError) + (if insertError(k).None? then [ss[k]] else [])
  {
    assert ss[..k + 1][..k] == ss[..k];
  }

  /** The same step, after the rows already in the store. */
  lemma WrittenExtend(start: seq<Sample>, ss: seq<Sample>, k: nat, insertError: nat -> Option<string>)
    requires k < |ss|
    ensures start + Written(ss[..k + 1], insertError)
         == (start + Written(ss[..k], insertError)) + (if insertError(k).None? then [ss[k]] else [])
  {
    WrittenStep(ss, k, insertError);
    ConcatAssoc(start, Written(ss[..k], insertError), if insertError(k).None? then [ss[k]] else []);
  }

  /** The error of the earliest failing insert, if any. */
  function FirstInsertError(n: nat, insertError: nat -> Option<string>): Option<string> {
    if n == 0 then None
    else if FirstInsertError(n - 1, insertError).Some? then FirstInsertError(n - 1, insertError)
    else insertError(n - 1)
  }

  /** No error is reported iff every insert succeeds, and a reported error
      is the error of one of the inserts. */
  lemma {:induction false} FirstInsertErrorMeaning(n: nat, insertError: nat -> Option<string>)
    ensures FirstInsertError(n, insertError).None? <==> forall k :: 0 <= k < n ==> insertError(k).None?
    ensures FirstInsertError(n, insertError).Some? ==>
              exists k :: 0 <= k < n && insertError(k) == FirstInsertError(n, insertError)
  {
    if n > 0 {
      FirstInsertErrorMeaning(n - 1, insertError);
    }
  }

  /** One more insert reports its error only when none failed before. */
  lemma FirstInsertErrorStep(k: nat, insertError: nat -> Option<string>)
    ensures FirstInsertError(k + 1, insertError)
         == if FirstInsertError(k, insertError).Some? then FirstInsertError(k, insertError) else insertError(k)
  {
  }

  datatype Response =
    | Ok(campaigns: seq<Campaign>, lsaMetrics: Option<Lsa.LsaMetrics>)
    | Error(status: nat, message: string)

  /** The handler.  The session, the request body, the configured
      local-services account id, the clocks and the upstream answers are
      parameters; the history table is the store.  The ghost results name
      the campaign list the handler builds and the local-services metrics it
      fetched. */
  method Handle(store: Store, session: Option<Session>, dateRange: string, accountIds: seq<string>,
                isLsaEnabled: bool, harvestLsaId: Option<string>,
                today: Calendar.Date, todayIso: string, nowIso: string, now: int,
                queryFor: string -> (string -> Option<seq<GoogleAds.Row>>),
                lsaQuery: string -> Option<seq<Lsa.Row>>,
                insertError: nat -> Option<string>)
    returns (r: Response, ghost all: seq<Campaign>, ghost metrics: Option<Lsa.LsaMetrics>)
    requires today.Valid()
    modifies store
    ensures session.None? ==> r == Error(401, "Unauthorized") && store.samples == old(store.samples)
    ensures session.Some? &&
            PlatformCampaigns(accountIds, Fetch(HasRefreshToken(session), dateRange, queryFor)).Failure? ==>
              r == Error(500, "Failed to fetch campaign stats") && store.samples == old(store.samples)
    ensures session.Some? &&
            PlatformCampaigns(accountIds, Fetch(HasRefreshToken(session), dateRange, queryFor)).Success? ==>
      var platform := PlatformCampaigns(accountIds, Fetch(HasRefreshToken(session), dateRange, queryFor)).value;
        && (metrics.Some? ==> Lsa.StatsOutcome(session, harvestLsaId, lsaQuery(Lsa.CampaignQuery(dateRange, today)), metrics.value))
        && Outcome(platform, all, metrics, isLsaEnabled, harvestLsaId, nowIso, now,
                old(store.samples), store.samples, insertError, r)
  {
    all, metrics := [], None;
    if session.None? {
      return Error(401, "Unauthorized"), all, metrics;
    }
    var platform := FetchPlatform(accountIds, Fetch(HasRefreshToken(session), dateRange, queryFor));
    if platform.Failure? {
      PlatformFailureMessage(accountIds, HasRefreshToken(session), dateRange, queryFor);
      return Error(500, platform.error), all, metrics;
    }
    r, all, metrics := Complete(store, session, platform.value, dateRange, isLsaEnabled, harvestLsaId,
                                today, todayIso, nowIso, now, lsaQuery, insertError);
  }

  /** The rest of the handler once the platform records are in: the
      synthetic record when the channel is enabled, then the history
      writes and the response. */
  method Complete(store: Store, session: Option<Session>, platform: seq<Campaign>, dateRange: string,
                  isLsaEnabled: bool, harvestLsaId: Option<string>,
                  today: Calendar.Date, todayIso: string, nowIso: string, now: int,
                  lsaQuery: string -> Option<seq<Lsa.Row>>,
                  insertError: nat -> Option<string>)
    returns (r: Response, ghost all: seq<Campaign>, ghost metrics: Option<Lsa.LsaMetrics>)
    requires today.Valid()
    modifies store
    ensures metrics.Some? ==> Lsa.StatsOutcome(session, harvestLsaId, lsaQuery(Lsa.CampaignQuery(dateRange, today)), metrics.value)
    ensures Outcome(platform, all, metrics, isLsaEnabled, harvestLsaId, nowIso, now,
                    old(store.samples), store.samples, insertError, r)
  {
    var allCampaigns := platform;
    var lsaMetrics: Option<Lsa.LsaMetrics> := None;
    if isLsaEnabled {
      var m := FetchLsa(session, harvestLsaId, dateRange, today, todayIso, lsaQuery);
      lsaMetrics := Some(m);
      allCampaigns := allCampaigns + [HarvestRecord(m, harvestLsaId, nowIso, now)];
    }
    var failure := WriteHistory(store, HistorySamples(allCampaigns, now), insertError, now);
    r := if failure.Some? then Error(500, failure.value) else Ok(allCampaigns, lsaMetrics);
    all, metrics := allCampaigns, lsaMetrics;
  }

  /** What a request whose platform part succeeded leaves behind: the
      response lists `all`, the platform records followed by the synthetic
      one when the channel is enabled, and the table gains the history rows
      of `all` whose insert succeeds; a failed insert turns the response
      into that insert's error. */
  ghost predicate Outcome(platform: seq<Campaign>, all: seq<Campaign>, metrics: Option<Lsa.LsaMetrics>,
                          isLsaEnabled: bool, harvestLsaId: Option<string>, nowIso: string, now: int,
                          before: seq<Sample>, after: seq<Sample>, insertError: nat -> Option<string>,
                          r: Response)
  {
    && (isLsaEnabled <==> metrics.Some?)
    && all == platform + (if isLsaEnabled then [HarvestRecord(metrics.value, harvestLsaId, nowIso, now)] else [])
    && after == before + Written(HistorySamples(all, now), insertError)
    && r == match FirstInsertError(|HistorySamples(all, now)|, insertError)
            case Some(e) => Error(500, e)
            case None => Ok(all, metrics)
  }

  /** `getLSAStats(session, dateRange)`, with the configured account id. */
  method FetchLsa(session: Option<Session>, harvestLsaId: Option<string>, dateRange: string,
                  today: Calendar.Date, todayIso: string, lsaQuery: string -> Option<seq<Lsa.Row>>)
    returns (m: Lsa.LsaMetrics)
    requires today.Valid()
    ensures Lsa.StatsOutcome(session, harvestLsaId, lsaQuery(Lsa.CampaignQuery(dateRange, today)), m)
  {
    m := Lsa.GetLsaStats(session, harvestLsaId, dateRange, today, todayIso, lsaQuery);
  }

  /** The per-account loop standing for `Promise.all`, run in account order. */
  method FetchPlatform(accountIds: seq<string>, fetch: Fetcher) returns (r: Result<seq<Campaign>, string>)
    ensures r == PlatformCampaigns(accountIds, fetch)
  {
    var allCampaigns: seq<Campaign> := [];
    var i := 0;
    while i < |accountIds|
      invariant 0 <= i <= |accountIds|
      invariant PlatformCampaigns(accountIds[..i], fetch) == Success(allCampaigns)
    {
      var stats := fetch(accountIds[i]);
      if stats.Failure? {
        PlatformFirstFailure(accountIds, i, fetch);
        return Failure(stats.error);
      }
      assert accountIds[..i + 1] == accountIds[..i] + [accountIds[i]];
      PlatformAppend(accountIds[..i], accountIds[i], fetch);
      allCampaigns := allCampaigns + FromPlatformAll(stats.value);
      i := i + 1;
    }
    assert accountIds[..i] == accountIds;
    r := Success(allCampaigns);
  }

  /** One insert per history row; every insert is attempted, the
      successful ones are stored and the earliest error is reported. */
  method WriteHistory(store: Store, history: seq<Sample>, insertError: nat -> Option<string>, now: int)
    returns (failure: Option<string>)
    modifies store
    ensures store.samples == old(store.samples) + Written(history, insertError)
    ensures failure == FirstInsertError(|history|, insertError)
  {
    failure := None;
    ghost var start := store.samples;
    var k := 0;
    while k < |history|
      invariant 0 <= k <= |history|
      invariant store.samples == start + Written(history[..k], insertError)
      invariant failure == FirstInsertError(k, insertError)
    {
      WrittenExtend(start, history, k, insertError);
      FirstInsertErrorStep(k, insertError);
      var s := history[k];
      if insertError(k).None? {
        store.Create(s.campaignId, s.accountId, s.cpc, s.cost, s.timestamp);
        assert Sample(s.campaignId, s.accountId, s.cpc, s.cost, s.timestamp) == s;
      } else if failure.None? {
        failure := insertError(k);
      }
      k := k + 1;
    }
    assert history[..k] == history;
  }

  /** When every account before `i` answers and account `i` fails, the
      list fails with account `i`'s error. */
  lemma {:induction false} PlatformFirstFailure(accountIds: seq<string>, i: nat, fetch: Fetcher)
    requires i < |accountIds|
    requires PlatformCampaigns(accountIds[..i], fetch).Success?
    requires fetch(accountIds[i]).Failure?
    ensures PlatformCampaigns(accountIds, fetch) == Failure(fetch(accountIds[i]).error)
  {
    if i > 0 {
      assert accountIds[..i][0] == accountIds[0] && accountIds[..i][1..] == accountIds[1..][..i - 1];
      PlatformFirstFailure(accountIds[1..], i - 1, fetch);
    }
  }

  /** One more account that answers appends its records after those of
      the accounts before it. */
  lemma {:induction false} PlatformAppend(accountIds: seq<string>, a: string, fetch: Fetcher)
    requires PlatformCampaigns(accountIds, fetch).Success?
    requires fetch(a).Success?
    ensures PlatformCampaigns(accountIds + [a], fetch)
         == Success(PlatformCampaigns(accountIds, fetch).value + FromPlatformAll(fetch(a).value))
  {
    var last := FromPlatformAll(fetch(a).value);
    if accountIds == [] {
      assert accountIds + [a] == [a] && [a][0] == a && [a][1..] == [];
      assert [] + last == last && last + [] == last;
    } else {
      var s := accountIds + [a];
      assert s[0] == accountIds[0] && s[1..] == accountIds[1..] + [a];
      PlatformAppend(accountIds[1..], a, fetch);
      var head := FromPlatformAll(fetch(accountIds[0]).value);
      var rest := PlatformCampaigns(accountIds[1..], fetch).value;
      ConcatAssoc(head, rest, last);
    }
  }

  lemma ConcatAssoc<T>(a: seq<T>, b: seq<T>, c: seq<T>)
    ensures a + (b + c) == (a + b) + c
  { }

  /** With platform ids other than the synthetic one, the synthetic record
      is the only one left out of the history, and it comes last. */
  lemma HarvestOnlyExcluded(platform: seq<Campaign>, h: Campaign)
    requires forall c :: c in platform ==> c.id != HarvestId
    requires h.id == HarvestId
    ensures NonHarvest(platform + [h]) == platform
    ensures NonHarvest(platform) == platform
  {
    assert (platform + [h])[..|platform|] == platform;
    assert forall i :: 0 <= i < |platform| ==> platform[i] in platform;
    NonHarvestIdentity(platform);
  }

  lemma {:induction false} NonHarvestIdentity(cs: seq<Campaign>)
    requires forall i :: 0 <= i < |cs| ==> cs[i].id != HarvestId
    ensures NonHarvest(cs) == cs
  {
    if cs != [] {
      var init := cs[..|cs| - 1];
      var last := cs[|cs| - 1];
      assert last.id != HarvestId;
      forall i | 0 <= i < |init|
        ensures init[i].id != HarvestId
      {
        assert init[i] == cs[i];
      }
      assert cs == init + [last];
      assert NonHarvest(cs) == NonHarvest(init) + [last];
      NonHarvestIdentity(init);
    }
  }
}
