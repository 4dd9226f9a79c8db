/** The dashboard page (src/pages/dashboard.tsx): the account list offered,
    the selection applied on mount, the headline totals, and the per-day
    chart series that merges LSA figures with platform campaigns. */
module Dashboard {
  import opened Wrappers
  import opened Numeric
  import opened Types
  import opened Sorting
  import JsObject

  // ---------------------------------------------------------------------
  // Accounts

  datatype Account = Account(id: string, name: string, managerId: string)

  /** `accounts.filter(account => account.id !== '')`. */
  function WithIds(accounts: seq<Account>): (r: seq<Account>)
    ensures forall i :: 0 <= i < |r| ==> r[i].id != ""
    ensures forall a :: a in r <==> a in accounts && a.id != ""
  {
    if accounts == [] then []
    else
      var init := WithIds(accounts[..|accounts| - 1]);
      var last := accounts[|accounts| - 1];
      assert forall a :: a in accounts <==> a in accounts[..|accounts| - 1] || a == last by {
        assert accounts == accounts[..|accounts| - 1] + [last];
      }
      if last.id != "" then init + [last] else init
  }

  /** `availableAccounts`: the one configured account, offered only when its
      id is set (`process.env.X || ''`). */
  function AvailableAccounts(harvestInsuranceId: Option<string>, managerId: Option<string>): (r: seq<Account>)
    ensures r != [] <==> harvestInsuranceId.Some? && harvestInsuranceId.value != ""
    ensures r != [] ==> r == [Account(harvestInsuranceId.value, "Harvest Insurance", managerId.GetOr(""))]
  {
    var r := WithIds([Account(harvestInsuranceId.GetOr(""), "Harvest Insurance", managerId.GetOr(""))]);
    assert r != [] ==> r[0] in r;
    r
  }

  /** The part of the page's state the mount effect touches: the current
      selection and date range, and the persisted settings. */
  class DashboardState {
    var selectedAccounts: seq<string>
    var dateRange: string
    var savedAccounts: Option<seq<string>>
    var savedDateRange: Option<string>

    constructor(savedAccounts: Option<seq<string>>, savedDateRange: Option<string>,
                selectedAccounts: seq<string>, dateRange: string)
      ensures this.savedAccounts == savedAccounts && this.savedDateRange == savedDateRange
      ensures this.selectedAccounts == selectedAccounts && this.dateRange == dateRange
    {
      this.savedAccounts := savedAccounts;
      this.savedDateRange := savedDateRange;
      this.selectedAccounts := selectedAccounts;
      this.dateRange := dateRange;
    }

    /** The run-once mount effect: restore a non-empty saved selection, or
        select and save the first available account; then restore a saved
        date range when one is set. */
    method Mount(availableAccounts: seq<Account>)
      modifies this
      ensures savedDateRange == old(savedDateRange)
      ensures old(savedAccounts).Some? && |old(savedAccounts).value| > 0 ==>
                selectedAccounts == old(savedAccounts).value && savedAccounts == old(savedAccounts)
      ensures !(old(savedAccounts).Some? && |old(savedAccounts).value| > 0) && availableAccounts != [] ==>
                selectedAccounts == [availableAccounts[0].id] && savedAccounts == Some([availableAccounts[0].id])
      ensures !(old(savedAccounts).Some? && |old(savedAccounts).value| > 0) && availableAccounts == [] ==>
                selectedAccounts == old(selectedAccounts) && savedAccounts == old(savedAccounts)
      ensures old(savedDateRange).Some? && old(savedDateRange).value != "" ==> dateRange == old(savedDateRange).value
      ensures !(old(savedDateRange).Some? && old(savedDateRange).value != "") ==> dateRange == old(dateRange)
    {
      if savedAccounts.Some? && |savedAccounts.value| > 0 {
        selectedAccounts := savedAccounts.value;
      } else if |availableAccounts| > 0 {
        var initialAccount := [availableAccounts[0].id];
        selectedAccounts := initialAccount;
        savedAccounts := Some(initialAccount);
      }
      if savedDateRange.Some? && savedDateRange.value != "" {
        dateRange := savedDateRange.value;
      }
    }
  }

  // ---------------------------------------------------------------------
  // Headline totals

  datatype Totals = Totals(totalSpend: real, totalClicks: real, totalConversions: real, totalImpressions: real)

  datatype CombinedMetrics = CombinedMetrics(totalSpend: real, totalClicks: real, totalConversions: real,
                                             totalImpressions: real, costPerLead: real)

  /** The reduce's seed: only the FIRST LSA daily point, absent figures as 0. */
  function Seed(lsaDaily: Option<seq<ChartData>>): (t: Totals)
    ensures lsaDaily.None? || lsaDaily.value == [] ==> t == Totals(0.0, 0.0, 0.0, 0.0)
    ensures lsaDaily.Some? && lsaDaily.value != [] ==>
              var p := lsaDaily.value[0];
              t == Totals(p.cost, p.clicks, p.conversions, p.impressions)
  {
    if lsaDaily.None? || lsaDaily.value == [] then Totals(0.0, 0.0, 0.0, 0.0)
    else
      var p := lsaDaily.value[0];
      Totals(p.cost, p.clicks, p.conversions, p.impressions)
  }

  /** `campaigns.reduce(...)` from a seed; a missing figure adds 0. */
  function Fold(seed: Totals, campaigns: seq<Campaign>): Totals {
    if campaigns == [] then seed
    else
      var acc := Fold(seed, campaigns[..|campaigns| - 1]);
      var c := campaigns[|campaigns| - 1];
      Totals(acc.totalSpend + OrZero(c.cost), acc.totalClicks + OrZero(c.clicks),
             acc.totalConversions + OrZero(c.conversions), acc.totalImpressions + OrZero(c.impressions))
  }

  datatype Figure = Cost | Clicks | Conversions | Impressions

  function FigureOf(c: Campaign, f: Figure): real {
    match f
    case Cost => OrZero(c.cost)
    case Clicks => OrZero(c.clicks)
    case Conversions => OrZero(c.conversions)
    case Impressions => OrZero(c.impressions)
  }

  /** One figure of every campaign, missing ones as 0, in order. */
  function Figures(campaigns: seq<Campaign>, f: Figure): (xs: seq<real>)
    ensures |xs| == |campaigns|
    ensures forall i :: 0 <= i < |campaigns| ==> xs[i] == FigureOf(campaigns[i], f)
  {
    seq(|campaigns|, i requires 0 <= i < |campaigns| => FigureOf(campaigns[i], f))
  }

  /** The fold adds each campaign's figures to the seed's, one sum per
      figure. */
  lemma {:induction false} FoldSums(seed: Totals, campaigns: seq<Campaign>)
    ensures Fold(seed, campaigns) == Totals(seed.totalSpend + Sum(Figures(campaigns, Cost)),
                                            seed.totalClicks + Sum(Figures(campaigns, Clicks)),
                                            seed.totalConversions + Sum(Figures(campaigns, Conversions)),
                                            seed.totalImpressions + Sum(Figures(campaigns, Impressions)))
  {
    if campaigns != [] {
      var init := campaigns[..|campaigns| - 1];
      FoldSums(seed, init);
      assert Figures(campaigns, Cost)[..|campaigns| - 1] == Figures(init, Cost);
      assert Figures(campaigns, Clicks)[..|campaigns| - 1] == Figures(init, Clicks);
      assert Figures(campaigns, Conversions)[..|campaigns| - 1] == Figures(init, Conversions);
      assert Figures(campaigns, Impressions)[..|campaigns| - 1] == Figures(init, Impressions);
    }
  }

  /** The page's `metrics`; `campaigns` is `None` when it is not an array. */
  function Metrics(campaigns: Option<seq<Campaign>>, lsaDaily: Option<seq<ChartData>>): (m: CombinedMetrics)
    ensures campaigns.None? ==> m == CombinedMetrics(0.0, 0.0, 0.0, 0.0, 0.0)
    ensures campaigns.Some? ==>
              && m.totalSpend == Seed(lsaDaily).totalSpend + Sum(Figures(campaigns.value, Cost))
              && m.totalClicks == Seed(lsaDaily).totalClicks + Sum(Figures(campaigns.value, Clicks))
              && m.totalConversions == Seed(lsaDaily).totalConversions + Sum(Figures(campaigns.value, Conversions))
              && m.totalImpressions == Seed(lsaDaily).totalImpressions + Sum(Figures(campaigns.value, Impressions))
    ensures m.totalConversions != 0.0 ==> m.costPerLead * m.totalConversions == m.totalSpend
    ensures m.totalConversions == 0.0 ==> m.costPerLead == 0.0
  {
    if campaigns.None? then CombinedMetrics(0.0, 0.0, 0.0, 0.0, 0.0)
    else
      var t := Fold(Seed(lsaDaily), campaigns.value);
      FoldSums(Seed(lsaDaily), campaigns.value);
      CombinedMetrics(t.totalSpend, t.totalClicks, t.totalConversions, t.totalImpressions,
                      if t.totalConversions != 0.0 then t.totalSpend / t.totalConversions else 0.0)
  }

  // ---------------------------------------------------------------------
  // Per-day chart series

  /** `ExtendedChartData`: one day's merged figures. */
  datatype ChartEntry = ChartEntry(date: string, cost: real, clicks: real, conversions: real, impressions: real,
                                   conversionTypes: ConversionTypes, campaignTypes: CampaignTypes)

  predicate Balanced(e: ChartEntry) {
    e.cost == e.campaignTypes.lsa + e.campaignTypes.ppc
  }

  /** The entry a platform campaign opens for a day nobody mentioned yet. */
  function ZeroEntry(date: string): (e: ChartEntry)
    ensures e.date == date && Balanced(e)
  {
    ChartEntry(date, 0.0, 0.0, 0.0, 0.0, ConversionTypes(0.0, 0.0), CampaignTypes(0.0, 0.0))
  }

  /** The entry an LSA daily point writes for its day: all of its cost is
      LSA cost. */
  function LsaEntry(date: string, p: ChartData): (e: ChartEntry)
    ensures e.date == date && Balanced(e)
    ensures e.campaignTypes == CampaignTypes(p.cost, 0.0)
  {
    var calls := if p.conversionTypes.Some? then p.conversionTypes.value.calls else 0.0;
    var messages := if p.conversionTypes.Some? then p.conversionTypes.value.messages else 0.0;
    ChartEntry(date, p.cost, p.clicks, p.conversions, p.impressions,
               ConversionTypes(calls, messages), CampaignTypes(p.cost, 0.0))
  }

  /** What one platform campaign adds to its day: its cost both to the total
      and to the PPC share; its call and message counts when it has them,
      otherwise its conversions as calls. */
  function AddCampaign(e: ChartEntry, c: Campaign): (r: ChartEntry)
    ensures r.date == e.date
    ensures Balanced(e) ==> Balanced(r)
    ensures r.campaignTypes.lsa == e.campaignTypes.lsa
    ensures r.cost - e.cost == r.campaignTypes.ppc - e.campaignTypes.ppc == OrZero(c.cost)
  {
    var ct := if c.conversionTypes.Some?
      then ConversionTypes(e.conversionTypes.calls + c.conversionTypes.value.calls,
                           e.conversionTypes.messages + c.conversionTypes.value.messages)
      else ConversionTypes(e.conversionTypes.calls + OrZero(c.conversions), e.conversionTypes.messages);
    ChartEntry(e.date, e.cost + OrZero(c.cost), e.clicks + OrZero(c.clicks),
               e.conversions + OrZero(c.conversions), e.impressions + OrZero(c.impressions),
               ct, CampaignTypes(e.campaignTypes.lsa, e.campaignTypes.ppc + OrZero(c.cost)))
  }

  /** The days the LSA points and the campaigns fall on, once normalised. */
  ghost function LsaDates(lsa: seq<ChartData>, normalize: string -> string): set<string> {
    set p | p in lsa :: normalize(p.date)
  }

  ghost function CampaignDates(campaigns: seq<Campaign>, normalize: string -> string): set<string> {
    set c | c in campaigns :: normalize(c.date)
  }

  /** Day `d` after the LSA pass: the last LSA point on that day, or nothing. */
  function SeedEntry(lsa: seq<ChartData>, normalize: string -> string, d: string): (e: Option<ChartEntry>)
    ensures e.Some? ==> e.value.date == d && Balanced(e.value)
  {
    if lsa == [] then None
    else
      var p := lsa[|lsa| - 1];
      if normalize(p.date) == d then Some(LsaEntry(d, p)) else SeedEntry(lsa[..|lsa| - 1], normalize, d)
  }

  /** Day `d` after both passes: the LSA entry (or a zero one) plus every
      campaign on that day, in order. */
  function MergedEntry(lsa: seq<ChartData>, campaigns: seq<Campaign>, normalize: string -> string,
                       d: string): (e: ChartEntry)
    ensures e.date == d && Balanced(e)
  {
    if campaigns == [] then
      (if SeedEntry(lsa, normalize, d).Some? then SeedEntry(lsa, normalize, d).value else ZeroEntry(d))
    else
      var e := MergedEntry(lsa, campaigns[..|campaigns| - 1], normalize, d);
      var c := campaigns[|campaigns| - 1];
      if normalize(c.date) == d then AddCampaign(e, c) else e
  }

  lemma {:induction false} SeedEntryPresent(lsa: seq<ChartData>, normalize: string -> string, d: string)
    ensures SeedEntry(lsa, normalize, d).Some? <==> d in LsaDates(lsa, normalize)
  {
    if lsa != [] {
      var init := lsa[..|lsa| - 1];
      SeedEntryPresent(init, normalize, d);
      assert lsa == init + [lsa[|lsa| - 1]];
      assert LsaDates(lsa, normalize) == LsaDates(init, normalize) + {normalize(lsa[|lsa| - 1].date)};
    }
  }

  /** Of several LSA points on one day, the last one's figures are kept. */
  lemma {:induction false} LastLsaPointWins(lsa: seq<ChartData>, normalize: string -> string, k: nat)
    requires k < |lsa|
    requires forall j :: k < j < |lsa| ==> normalize(lsa[j].date) != normalize(lsa[k].date)
    ensures SeedEntry(lsa, normalize, normalize(lsa[k].date)) == Some(LsaEntry(normalize(lsa[k].date), lsa[k]))
  {
    if k < |lsa| - 1 {
      var init := lsa[..|lsa| - 1];
      assert init[k] == lsa[k];
      LastLsaPointWins(init, normalize, k);
    }
  }

  /** A day no campaign falls on keeps its LSA figures. */
  lemma {:induction false} MergedEntryUntouched(lsa: seq<ChartData>, campaigns: seq<Campaign>,
                                                normalize: string -> string, d: string)
    requires d !in CampaignDates(campaigns, normalize)
    ensures MergedEntry(lsa, campaigns, normalize, d) == MergedEntry(lsa, [], normalize, d)
  {
    if campaigns != [] {
      var init := campaigns[..|campaigns| - 1];
      assert campaigns[|campaigns| - 1] in campaigns;
      assert CampaignDates(init, normalize) <= CampaignDates(campaigns, normalize);
      MergedEntryUntouched(lsa, init, normalize, d);
    }
  }

  /** The dates of a list of entries, in order. */
  function EntryDates(es: seq<ChartEntry>): (ds: seq<string>)
    ensures |ds| == |es| && forall i :: 0 <= i < |es| ==> ds[i] == es[i].date
  {
    seq(|es|, i requires 0 <= i < |es| => es[i].date)
  }

  /** Invariant of the dictionary after the LSA pass and `done` campaigns. */
  ghost predicate MergedSoFar(combined: JsObject.Object<ChartEntry>, lsa: seq<ChartData>, done: seq<Campaign>,
                              normalize: string -> string) {
    && combined.Valid()
    && combined.entries.Keys == LsaDates(lsa, normalize) + CampaignDates(done, normalize)
    && forall d :: d in combined.entries ==> combined.entries[d] == MergedEntry(lsa, done, normalize, d)
  }

  /** The LSA pass: `combinedData[date] = {...}` for each point in turn. */
  method SeedLsa(lsa: seq<ChartData>, normalize: string -> string) returns (combined: JsObject.Object<ChartEntry>)
    ensures MergedSoFar(combined, lsa, [], normalize)
  {
    combined := JsObject.Empty<ChartEntry>();
    var i := 0;
    while i < |lsa|
      invariant 0 <= i <= |lsa|
      invariant combined.Valid()
      invariant combined.entries.Keys == LsaDates(lsa[..i], normalize)
      invariant forall d :: d in combined.entries ==> Some(combined.entries[d]) == SeedEntry(lsa[..i], normalize, d)
    {
      var date := normalize(lsa[i].date);
      combined := combined.Put(date, LsaEntry(date, lsa[i]));
      assert lsa[..i + 1] == lsa[..i] + [lsa[i]];
      assert LsaDates(lsa[..i + 1], normalize) == LsaDates(lsa[..i], normalize) + {date};
      i := i + 1;
    }
    assert lsa[..i] == lsa;
    assert CampaignDates([], normalize) == {};
  }

  lemma MergedEntryStep(lsa: seq<ChartData>, done: seq<Campaign>, c: Campaign, normalize: string -> string, d: string)
    ensures MergedEntry(lsa, done + [c], normalize, d) ==
              if normalize(c.date) == d then AddCampaign(MergedEntry(lsa, done, normalize, d), c)
              else MergedEntry(lsa, done, normalize, d)
  {
    var all := done + [c];
    assert all[..|all| - 1] == done;
  }

  lemma CampaignDatesStep(done: seq<Campaign>, c: Campaign, normalize: string -> string)
    ensures CampaignDates(done + [c], normalize) == CampaignDates(done, normalize) + {normalize(c.date)}
  {
  }

  /** `combinedData[date].cost += campaign.cost || 0` and the other updates,
      field by field. */
  method AddFigures(e: ChartEntry, campaign: Campaign) returns (r: ChartEntry)
    ensures r == AddCampaign(e, campaign)
  {
    r := e;
    r := r.(cost := r.cost + OrZero(campaign.cost));
    r := r.(clicks := r.clicks + OrZero(campaign.clicks));
    r := r.(conversions := r.conversions + OrZero(campaign.conversions));
    r := r.(impressions := r.impressions + OrZero(campaign.impressions));
    r := r.(campaignTypes := r.campaignTypes.(ppc := r.campaignTypes.ppc + OrZero(campaign.cost)));
    if campaign.conversionTypes.Some? {
      var convTypes := campaign.conversionTypes.value;
      r := r.(conversionTypes := r.conversionTypes.(calls := r.conversionTypes.calls + convTypes.calls));
      r := r.(conversionTypes := r.conversionTypes.(messages := r.conversionTypes.messages + convTypes.messages));
    } else {
      r := r.(conversionTypes := r.conversionTypes.(calls := r.conversionTypes.calls + OrZero(campaign.conversions)));
    }
  }

  /** `if (!combinedData[date]) combinedData[date] = {...}` with all
      figures 0: a day no LSA point and no earlier campaign fell on. */
  method OpenDay(combined: JsObject.Object<ChartEntry>, ghost lsa: seq<ChartData>, ghost done: seq<Campaign>,
                 normalize: string -> string, date: string) returns (next: JsObject.Object<ChartEntry>)
    requires MergedSoFar(combined, lsa, done, normalize)
    ensures next.Valid() && next.entries.Keys == combined.entries.Keys + {date}
    ensures forall d :: d in next.entries ==> next.entries[d] == MergedEntry(lsa, done, normalize, d)
  {
    next := combined;
    if date !in next.entries {
      SeedEntryPresent(lsa, normalize, date);
      MergedEntryUntouched(lsa, done, normalize, date);
      next := next.Put(date, ZeroEntry(date));
    }
  }

  /** Writing the campaign's figures into its withDay day re-establishes
      the invariant with that campaign counted. */
  lemma AddToDayKeeps(withDay: JsObject.Object<ChartEntry>, lsa: seq<ChartData>, done: seq<Campaign>,
                      c: Campaign, normalize: string -> string, e: ChartEntry)
    requires withDay.Valid()
    requires withDay.entries.Keys == LsaDates(lsa, normalize) + CampaignDates(done, normalize) + {normalize(c.date)}
    requires forall d :: d in withDay.entries ==> withDay.entries[d] == MergedEntry(lsa, done, normalize, d)
    requires e == AddCampaign(withDay.entries[normalize(c.date)], c)
    ensures MergedSoFar(withDay.Put(normalize(c.date), e), lsa, done + [c], normalize)
  {
    CampaignDatesStep(done, c, normalize);
    AddToDayValues(withDay.entries, lsa, done, c, normalize, e);
  }

  lemma AddToDayValues(entries: map<string, ChartEntry>, lsa: seq<ChartData>, done: seq<Campaign>,
                       c: Campaign, normalize: string -> string, e: ChartEntry)
    requires normalize(c.date) in entries
    requires forall d :: d in entries ==> entries[d] == MergedEntry(lsa, done, normalize, d)
    requires e == AddCampaign(entries[normalize(c.date)], c)
    ensures forall d :: d in entries[normalize(c.date) := e] ==>
              entries[normalize(c.date) := e][d] == MergedEntry(lsa, done + [c], normalize, d)
  {
    forall d | d in entries[normalize(c.date) := e]
      ensures entries[normalize(c.date) := e][d] == MergedEntry(lsa, done + [c], normalize, d)
    {
      MergedEntryStep(lsa, done, c, normalize, d);
    }
  }

  /** One step of the campaign pass: open the day with zeros if it is not
      there yet, then add the campaign into it. */
  method AddToDay(combined: JsObject.Object<ChartEntry>, ghost lsa: seq<ChartData>, ghost done: seq<Campaign>,
                  campaign: Campaign, normalize: string -> string) returns (next: JsObject.Object<ChartEntry>)
    requires MergedSoFar(combined, lsa, done, normalize)
    ensures MergedSoFar(next, lsa, done + [campaign], normalize)
  {
    var date := normalize(campaign.date);
    var withDay := OpenDay(combined, lsa, done, normalize, date);
    var e := AddFigures(withDay.entries[date], campaign);
    AddToDayKeeps(withDay, lsa, done, campaign, normalize, e);
    next := withDay.Put(date, e);
  }

  /** The campaign pass: every campaign added into its day, in order. */
  method AddCampaigns(seeded: JsObject.Object<ChartEntry>, lsa: seq<ChartData>, campaigns: seq<Campaign>,
                      normalize: string -> string) returns (combined: JsObject.Object<ChartEntry>)
    requires MergedSoFar(seeded, lsa, [], normalize)
    ensures MergedSoFar(combined, lsa, campaigns, normalize)
  {
    combined := seeded;
    ghost var done: seq<Campaign> := [];
    var j := 0;
    while j < |campaigns|
      invariant 0 <= j <= |campaigns| && done == campaigns[..j]
      invariant MergedSoFar(combined, lsa, done, normalize)
    {
      combined := AddToDay(combined, lsa, done, campaigns[j], normalize);
      done := done + [campaigns[j]];
      j := j + 1;
    }
    assert done == campaigns;
  }

  /** `chartData`: LSA points are written first, one entry per normalised
      day (a later point on the same day replaces the earlier one); then
      every platform campaign is added into its day's entry; the entries are
      returned in ascending date order. */
  method MergeChartData(lsaDaily: Option<seq<ChartData>>, campaigns: seq<Campaign>, normalize: string -> string)
    returns (out: seq<ChartEntry>)
    ensures SortedBy(EntryDates(out), JsObject.KeyLeq) && NoDups(EntryDates(out))
    ensures forall d :: d in EntryDates(out) <==>
              d in LsaDates(lsaDaily.GetOr([]), normalize) || d in CampaignDates(campaigns, normalize)
    ensures forall i :: 0 <= i < |out| ==> out[i] == MergedEntry(lsaDaily.GetOr([]), campaigns, normalize, out[i].date)
  {
    var lsa := lsaDaily.GetOr([]);
    var seeded := SeedLsa(lsa, normalize);
    var combined := AddCampaigns(seeded, lsa, campaigns, normalize);
    var ks := JsObject.SortedKeys(combined);
    out := seq(|ks|, k requires 0 <= k < |ks| => combined.entries[ks[k]]);
    assert EntryDates(out) == ks;
  }
}
