/** Local-services (LSA) metrics (src/lib/lsa.ts): the date filter of the
    LSA query, the fold of the daily rows into totals and a per-date table,
    the fixed 95% call / 5% message split, and the result record. */
module Lsa {
  import opened Wrappers
  import opened Numeric
  import opened Types
  import Calendar
  import JsObject
  import Sorting
  import Text

  const CallShare: real := 0.95
  const MessageShare: real := 0.05
  const Micros: real := 1000000.0

  // ---------------------------------------------------------------- date filter

  /** The first and last day the filter selects for a range name; anything
      unrecognised selects the last 30 days. */
  function DateRangeWindow(dateRange: string, today: Calendar.Date): (w: (Calendar.Date, Calendar.Date))
    requires today.Valid()
    ensures w.0.Valid() && w.1.Valid()
    ensures Calendar.NotAfter(w.0, w.1)
    ensures Text.Lower(dateRange) != "yesterday" ==> w.1 == today
    ensures Text.Lower(dateRange) == "today" ==> w.0 == today
    ensures Text.Lower(dateRange) == "yesterday" ==> w.0 == w.1 == Calendar.PrevDay(today)
    ensures Text.Lower(dateRange) == "last_7_days" ==> w.0 == Calendar.SubtractDays(today, 7)
    ensures Text.Lower(dateRange) == "this_month" ==> w.0 == Calendar.FirstOfMonth(today)
    ensures !IsLsaRangeName(Text.Lower(dateRange)) ==> w.0 == Calendar.SubtractDays(today, 30)
  {
    match Text.Lower(dateRange)
    case "today" => (today, today)
    case "yesterday" => (Calendar.PrevDay(today), Calendar.PrevDay(today))
    case "last_7_days" =>
      Calendar.SubtractDaysNotAfter(today, 7);
      (Calendar.SubtractDays(today, 7), today)
    case "this_month" => (Calendar.FirstOfMonth(today), today)
    case _ =>
      Calendar.SubtractDaysNotAfter(today, 30);
      (Calendar.SubtractDays(today, 30), today)
  }

  /** The range names the switch recognises. */
  predicate IsLsaRangeName(name: string) {
    name == "today" || name == "yesterday" || name == "last_7_days" || name == "this_month"
  }

  /** How many days each range reaches back: the window ends today (the
      day before for `yesterday`) and spans 0, 0, 7, the days of the month
      so far, or 30 days before its last day. */
  lemma DateRangeDays(dateRange: string, today: Calendar.Date)
    requires today.Valid()
    ensures var w := DateRangeWindow(dateRange, today); var name := Text.Lower(dateRange);
      && Calendar.DayNumber(w.1) == Calendar.DayNumber(today) - (if name == "yesterday" then 1 else 0)
      && Calendar.DayNumber(w.1) - Calendar.DayNumber(w.0)
         == (if name == "today" || name == "yesterday" then 0
             else if name == "last_7_days" then 7
             else if name == "this_month" then today.day - 1
             else 30)
  {
  }

  /** `getDateRangeFilter(dateRange, field)` on the local date `today`:
      `<field> BETWEEN '<first day>' AND '<last day>'`. */
  function GetDateRangeFilter(dateRange: string, field: string, today: Calendar.Date): (r: string)
    requires today.Valid()
    ensures var w := DateRangeWindow(dateRange, today);
      r == field + " BETWEEN '" + Calendar.FormatDate(w.0) + "' AND '" + Calendar.FormatDate(w.1) + "'"
    ensures |r| > |field| && r[..|field|] == field && r[|r| - 1] == '\''
  {
    var w := DateRangeWindow(dateRange, today);
    FilterShape(field, Calendar.FormatDate(w.0), Calendar.FormatDate(w.1));
    field + " BETWEEN '" + Calendar.FormatDate(w.0) + "' AND '" + Calendar.FormatDate(w.1) + "'"
  }

  /** The filter text starts with the field and ends with a quote. */
  lemma FilterShape(field: string, start: string, end: string)
    ensures var r := field + " BETWEEN '" + start + "' AND '" + end + "'";
      |r| > |field| && r[..|field|] == field && r[|r| - 1] == '\''
  {
    var r := field + " BETWEEN '" + start + "' AND '" + end + "'";
    var rest := " BETWEEN '" + start + "' AND '" + end + "'";
    assert r == field + rest;
    assert r[..|field|] == field;
  }

  const QueryHead: string :=
    "\n                SELECT\n" +
    "                    campaign.id,\n" +
    "                    campaign.name,\n" +
    "                    campaign.status,\n" +
    "                    campaign_budget.amount_micros,\n" +
    "                    metrics.cost_micros,\n" +
    "                    metrics.all_conversions,\n" +
    "                    metrics.phone_through_rate,\n" +
    "                    segments.date\n" +
    "                FROM campaign\n" +
    "                WHERE campaign.advertising_channel_type = 'LOCAL_SERVICES'\n" +
    "                AND campaign.status != 'REMOVED'\n" +
    "                AND "

  const QueryTail: string := "\n            "

  /** The LSA campaign query for a date range: the date filter is its last
      condition. */
  function CampaignQuery(dateRange: string, today: Calendar.Date): (q: string)
    requires today.Valid()
    ensures var f := GetDateRangeFilter(dateRange, "segments.date", today);
      && |q| == |QueryHead| + |f| + |QueryTail|
      && q[..|QueryHead|] == QueryHead
      && q[|QueryHead|..|QueryHead| + |f|] == f
  {
    var f := GetDateRangeFilter(dateRange, "segments.date", today);
    ConcatParts(QueryHead, f, QueryTail);
    QueryHead + f + QueryTail
  }

  lemma ConcatParts<T>(a: seq<T>, b: seq<T>, c: seq<T>)
    ensures (a + b + c)[..|a|] == a && (a + b + c)[|a|..|a| + |b|] == b
  {
    assert (a + b + c)[..|a|] == a;
    assert (a + b + c)[|a|..|a| + |b|] == b;
  }

  // ---------------------------------------------------------------- raw rows

  datatype RowMetrics = RowMetrics(costMicros: Option<real>, allConversions: Option<real>)

  /** One row of the LSA query; each field is the nested `row.x?.y` path. */
  datatype Row = Row(
    campaignId: Option<string>,
    campaignName: Option<string>,
    status: Option<int>,
    budgetMicros: Option<real>,
    metrics: Option<RowMetrics>,
    date: Option<string>)

  /** `row.campaign?.status === 2`. */
  predicate IsActive(row: Row) {
    row.status == Some(2)
  }

  /** The rows that enter the metrics branch: `if (date && row.metrics)`. */
  predicate Enters(row: Row) {
    row.date.Some? && row.date.value != "" && row.metrics.Some?
  }

  function RowCost(row: Row): real {
    if row.metrics.Some? then OrZero(row.metrics.value.costMicros) / Micros else 0.0
  }

  function RowConversions(row: Row): real {
    if row.metrics.Some? then OrZero(row.metrics.value.allConversions) else 0.0
  }

  function RowBudget(row: Row): real {
    if Truthy(row.budgetMicros) then row.budgetMicros.value / Micros else 0.0
  }

  /** The call share of a day's conversions in the totals:
      `Math.round(conversions * 0.95)`; the messages are the remainder. */
  function CallsOf(conversions: real): (calls: real)
    ensures conversions * CallShare - 0.5 < calls <= conversions * CallShare + 0.5
    ensures calls == calls.Floor as real
  {
    MathRound(conversions * CallShare) as real
  }

  datatype DailyEntry = DailyEntry(date: string, cost: real, conversions: real)

  function EntryOf(row: Row): DailyEntry
    requires Enters(row)
  {
    DailyEntry(row.date.value, RowCost(row), RowConversions(row))
  }

  // ---------------------------------------------------------------- reference sums

  /** Conversions of the rows that enter the metrics branch. */
  function EnteredConversions(rows: seq<Row>): real {
    if rows == [] then 0.0
    else EnteredConversions(rows[..|rows| - 1])
         + (if Enters(rows[|rows| - 1]) then RowConversions(rows[|rows| - 1]) else 0.0)
  }

  /** Cost of the rows that enter the metrics branch. */
  function EnteredCost(rows: seq<Row>): real {
    if rows == [] then 0.0
    else EnteredCost(rows[..|rows| - 1])
         + (if Enters(rows[|rows| - 1]) then RowCost(rows[|rows| - 1]) else 0.0)
  }

  /** Call shares of the rows that enter the metrics branch. */
  function EnteredCalls(rows: seq<Row>): real {
    if rows == [] then 0.0
    else EnteredCalls(rows[..|rows| - 1])
         + (if Enters(rows[|rows| - 1]) then CallsOf(RowConversions(rows[|rows| - 1])) else 0.0)
  }

  function ActiveCount(rows: seq<Row>): nat {
    if rows == [] then 0
    else ActiveCount(rows[..|rows| - 1]) + (if IsActive(rows[|rows| - 1]) then 1 else 0)
  }

  function BudgetTotal(rows: seq<Row>): real {
    if rows == [] then 0.0 else BudgetTotal(rows[..|rows| - 1]) + RowBudget(rows[|rows| - 1])
  }

  /** The per-date table after the rows: each entering row writes its date. */
  function DailyTable(rows: seq<Row>): map<string, DailyEntry> {
    if rows == [] then map[]
    else if Enters(rows[|rows| - 1]) then
      DailyTable(rows[..|rows| - 1])[rows[|rows| - 1].date.value := EntryOf(rows[|rows| - 1])]
    else DailyTable(rows[..|rows| - 1])
  }

  /** A date has an entry exactly when some entering row carries it. */
  lemma {:induction false} DailyTableKeys(rows: seq<Row>, d: string)
    ensures d in DailyTable(rows) <==> exists i :: 0 <= i < |rows| && Enters(rows[i]) && rows[i].date.value == d
  {
    if rows != [] {
      var init := rows[..|rows| - 1];
      DailyTableKeys(init, d);
      if exists i :: 0 <= i < |init| && Enters(init[i]) && init[i].date.value == d {
        var i :| 0 <= i < |init| && Enters(init[i]) && init[i].date.value == d;
        assert rows[i] == init[i];
      }
      if exists i :: 0 <= i < |rows| && Enters(rows[i]) && rows[i].date.value == d {
        var i :| 0 <= i < |rows| && Enters(rows[i]) && rows[i].date.value == d;
        if i < |init| {
          assert init[i] == rows[i];
        }
      }
    }
  }

  /** A later row with the same date overwrites the earlier one: a date's
      entry comes from the last entering row that carries it. */
  lemma {:induction false} DailyTableLastWins(rows: seq<Row>, i: nat)
    requires i < |rows| && Enters(rows[i])
    requires forall j :: i < j < |rows| ==> !(Enters(rows[j]) && rows[j].date == rows[i].date)
    ensures rows[i].date.value in DailyTable(rows)
    ensures DailyTable(rows)[rows[i].date.value] == EntryOf(rows[i])
  {
    if i < |rows| - 1 {
      var init := rows[..|rows| - 1];
      assert init[i] == rows[i];
      forall j | i < j < |init| ensures !(Enters(init[j]) && init[j].date == init[i].date) {
        assert init[j] == rows[j];
      }
      DailyTableLastWins(init, i);
    }
  }

  /** Every entry is filed under its own date. */
  lemma {:induction false} DailyTableDates(rows: seq<Row>)
    ensures forall d :: d in DailyTable(rows) ==> DailyTable(rows)[d].date == d
  {
    if rows != [] {
      DailyTableDates(rows[..|rows| - 1]);
    }
  }

  /** With no entry in the table no row entered, so nothing was spent. */
  lemma {:induction false} EmptyTableNoSpend(rows: seq<Row>)
    ensures DailyTable(rows) == map[] ==>
              EnteredCost(rows) == 0.0 && EnteredConversions(rows) == 0.0 && EnteredCalls(rows) == 0.0
  {
    if rows != [] {
      var last := rows[|rows| - 1];
      EmptyTableNoSpend(rows[..|rows| - 1]);
      if Enters(last) {
        assert last.date.value in DailyTable(rows);
      }
    }
  }

  // ---------------------------------------------------------------- the fold

  datatype Totals = Totals(
    messageLeads: real,
    callLeads: real,
    totalSpend: real,
    activeCampaigns: nat,
    campaignBudget: real,
    dailyMetrics: JsObject.Object<DailyEntry>)

  /** The `forEach` over the response rows (lines 117-153).  Calls and
      messages of every entering row add up to its conversions, so the two
      lead counters together are the entering rows' conversions. */
  method FoldRows(rows: seq<Row>) returns (t: Totals)
    ensures t.dailyMetrics.Valid()
    ensures t.dailyMetrics.entries == DailyTable(rows)
    ensures t.callLeads + t.messageLeads == EnteredConversions(rows)
    ensures t.callLeads == EnteredCalls(rows)
    ensures t.totalSpend == EnteredCost(rows)
    ensures t.activeCampaigns == ActiveCount(rows)
    ensures t.campaignBudget == BudgetTotal(rows)
    ensures t.dailyMetrics.keys == [] ==> t.totalSpend == 0.0
  {
    var messageLeads, callLeads, totalSpend := 0.0, 0.0, 0.0;
    var activeCampaigns: nat := 0;
    var campaignBudget := 0.0;
    var dailyMetrics := JsObject.Empty<DailyEntry>();
    var i := 0;
    while i < |rows|
      invariant 0 <= i <= |rows|
      invariant dailyMetrics.Valid() && dailyMetrics.entries == DailyTable(rows[..i])
      invariant callLeads + messageLeads == EnteredConversions(rows[..i])
      invariant callLeads == EnteredCalls(rows[..i])
      invariant totalSpend == EnteredCost(rows[..i])
      invariant activeCampaigns == ActiveCount(rows[..i])
      invariant campaignBudget == BudgetTotal(rows[..i])
    {
      var row := rows[i];
      assert rows[..i + 1][..i] == rows[..i];
      if row.status == Some(2) {
        activeCampaigns := activeCampaigns + 1;
      }
      if Truthy(row.budgetMicros) {
        campaignBudget := campaignBudget + row.budgetMicros.value / Micros;
      }
      if row.date.Some? && row.date.value != "" && row.metrics.Some? {
        var date := row.date.value;
        var dailyCost := OrZero(row.metrics.value.costMicros) / Micros;
        var dailyConversions := OrZero(row.metrics.value.allConversions);
        var phoneCallConversions := MathRound(dailyConversions * 0.95) as real;
        var messageConversions := dailyConversions - phoneCallConversions;
        dailyMetrics := dailyMetrics.Put(date, DailyEntry(date, dailyCost, dailyConversions));
        totalSpend := totalSpend + dailyCost;
        callLeads := callLeads + phoneCallConversions;
        messageLeads := messageLeads + messageConversions;
      }
      i := i + 1;
    }
    assert rows[..i] == rows;
    EmptyTableNoSpend(rows);
    t := Totals(messageLeads, callLeads, totalSpend, activeCampaigns, campaignBudget, dailyMetrics);
  }

  // ---------------------------------------------------------------- the result

  datatype Conversations = Conversations(total: real, calls: real, messages: real, avgCallDuration: real)

  datatype DetailConversions = DetailConversions(total: real, calls: real, messages: real)

  datatype CampaignDetail = CampaignDetail(id: string, name: string, status: string,
                                           cost: real, conversions: DetailConversions)

  datatype CampaignsSummary = CampaignsSummary(total: nat, active: nat, budget: real,
                                               details: seq<CampaignDetail>)

  /** `LSAMetrics`. */
  datatype LsaMetrics = LsaMetrics(
    totalLeads: real,
    messageLeads: real,
    callLeads: real,
    totalSpend: real,
    error: Option<string>,
    conversations: Conversations,
    campaigns: CampaignsSummary,
    dailyMetrics: seq<ChartData>)

  /** `getEmptyMetrics()`. */
  function EmptyMetrics(): (m: LsaMetrics)
    ensures m.totalLeads == m.messageLeads == m.callLeads == m.totalSpend == 0.0
    ensures m.conversations == Conversations(0.0, 0.0, 0.0, 0.0)
    ensures m.campaigns == CampaignsSummary(0, 0, 0.0, [])
    ensures m.dailyMetrics == [] && m.error.None?
  {
    LsaMetrics(0.0, 0.0, 0.0, 0.0, None, Conversations(0.0, 0.0, 0.0, 0.0),
               CampaignsSummary(0, 0, 0.0, []), [])
  }

  /** One campaign detail line; its calls and messages are each rounded
      from 95% and 5% on their own. */
  function Detail(row: Row): (d: CampaignDetail)
    ensures d.status == (if IsActive(row) then "Active" else "Paused")
    ensures d.cost == RowCost(row) && d.conversions.total == RowConversions(row)
  {
    var total := RowConversions(row);
    CampaignDetail(
      if row.campaignId.Some? && row.campaignId.value != "" then row.campaignId.value else "",
      if row.campaignName.Some? && row.campaignName.value != "" then row.campaignName.value else "",
      if IsActive(row) then "Active" else "Paused",
      RowCost(row),
      DetailConversions(total, MathRound(total * CallShare) as real, MathRound(total * MessageShare) as real))
  }

  /** One chart point of the daily table: no clicks or impressions, and
      calls and messages each rounded from 95% and 5% on their own. */
  function DailyPoint(e: DailyEntry): (p: ChartData)
    ensures p.date == e.date && p.cost == e.cost && p.conversions == e.conversions
    ensures p.clicks == 0.0 && p.impressions == 0.0
    ensures p.conversionTypes.Some? && p.campaignTypes.None?
  {
    ChartData(e.date, e.cost, 0.0, e.conversions, 0.0,
              Some(ConversionTypes(MathRound(e.conversions * CallShare) as real,
                                   MathRound(e.conversions * MessageShare) as real)),
              None)
  }

  /** The independently rounded chart split is off from the conversions by
      at most one either way. */
  lemma ChartSplitNearConversions(e: DailyEntry)
    ensures var ct := DailyPoint(e).conversionTypes.value;
      e.conversions - 1.0 < ct.calls + ct.messages <= e.conversions + 1.0
  {
  }

  /** ... and need not equal them: 10 conversions chart as 10 calls and 1
      message, while the totals split them as 10 and 0. */
  lemma ChartSplitNeedNotSum()
    ensures var ct := DailyPoint(DailyEntry("2024-01-01", 0.0, 10.0)).conversionTypes.value;
      ct.calls + ct.messages == 11.0
    ensures CallsOf(10.0) == 10.0
  {
    assert MathRound(10.0 * CallShare) == 10;
    assert MathRound(10.0 * MessageShare) == 1;
  }

  /** The dates of a list of chart points, in order. */
  function Dates(ps: seq<ChartData>): (ds: seq<string>)
    ensures |ds| == |ps| && forall i :: 0 <= i < |ps| ==> ds[i] == ps[i].date
  {
    seq(|ps|, i requires 0 <= i < |ps| => ps[i].date)
  }

  /** `Object.values(dailyMetrics).map(...).sort(by date)`: one point per
      date, in ascending date order. */
  function ChartPoints(daily: JsObject.Object<DailyEntry>): (ps: seq<ChartData>)
    requires daily.Valid()
    requires forall d :: d in daily.entries ==> daily.entries[d].date == d
    ensures |ps| == |daily.keys|
    ensures Sorting.SortedBy(Dates(ps), JsObject.KeyLeq) && Sorting.NoDups(Dates(ps))
    ensures forall i :: 0 <= i < |ps| ==> ps[i].date in daily.entries && ps[i] == DailyPoint(daily.entries[ps[i].date])
    ensures forall d :: d in daily.entries ==> d in Dates(ps)
  {
    var ks := JsObject.SortedKeys(daily);
    var ps := seq(|ks|, i requires 0 <= i < |ks| => DailyPoint(daily.entries[ks[i]]));
    assert Dates(ps) == ks;
    ps
  }

  /** The result record built after the fold (lines 156-212), including the
      single-point fallback for an empty chart with spend. */
  function BuildMetrics(rows: seq<Row>, t: Totals, todayIso: string): (m: LsaMetrics)
    requires t.dailyMetrics.Valid()
    requires forall d :: d in t.dailyMetrics.entries ==> t.dailyMetrics.entries[d].date == d
    ensures m.totalLeads == m.messageLeads + m.callLeads
    ensures m.conversations == Conversations(m.totalLeads, t.callLeads, t.messageLeads, 0.0)
    ensures m.campaigns.total == |rows| && m.campaigns.active == t.activeCampaigns
    ensures m.campaigns.budget == t.campaignBudget
    ensures |m.campaigns.details| == |rows| && forall i :: 0 <= i < |rows| ==> m.campaigns.details[i] == Detail(rows[i])
    ensures m.error.None?
    ensures t.dailyMetrics.keys != [] || t.totalSpend <= 0.0 ==> m.dailyMetrics == ChartPoints(t.dailyMetrics)
  {
    var points := ChartPoints(t.dailyMetrics);
    var m := LsaMetrics(
      t.messageLeads + t.callLeads, t.messageLeads, t.callLeads, t.totalSpend, None,
      Conversations(t.callLeads + t.messageLeads, t.callLeads, t.messageLeads, 0.0),
      CampaignsSummary(|rows|, t.activeCampaigns, t.campaignBudget, seq(|rows|, i requires 0 <= i < |rows| => Detail(rows[i]))),
      points);
    if |points| == 0 && t.totalSpend > 0.0 then
      m.(dailyMetrics := points + [ChartData(todayIso, t.totalSpend, 0.0, t.messageLeads + t.callLeads, 0.0,
                                             Some(ConversionTypes(t.callLeads, t.messageLeads)), None)])
    else m
  }

  /** What the result says about the rows of a successful query. */
  ghost predicate SummarisesRows(m: LsaMetrics, rows: seq<Row>) {
    && m.error.None?
    && m.totalLeads == m.callLeads + m.messageLeads == EnteredConversions(rows)
    && m.callLeads == EnteredCalls(rows)
    && m.totalSpend == EnteredCost(rows)
    && m.campaigns.total == |rows| && m.campaigns.active == ActiveCount(rows)
    && m.campaigns.budget == BudgetTotal(rows)
    && m.conversations == Conversations(m.totalLeads, m.callLeads, m.messageLeads, 0.0)
    && |m.campaigns.details| == |rows|
    && (forall i :: 0 <= i < |rows| ==> m.campaigns.details[i] == Detail(rows[i]))
    && |m.dailyMetrics| == |DailyTable(rows)|
    && Sorting.SortedBy(Dates(m.dailyMetrics), JsObject.KeyLeq)
    && Sorting.NoDups(Dates(m.dailyMetrics))
    && (forall d :: d in DailyTable(rows) ==> d in Dates(m.dailyMetrics))
    && (forall i :: 0 <= i < |m.dailyMetrics| ==>
          m.dailyMetrics[i].date in DailyTable(rows)
          && m.dailyMetrics[i] == DailyPoint(DailyTable(rows)[m.dailyMetrics[i].date]))
  }

  /** What `getLSAStats` returns: an error record without a refresh token
      or without an account id, empty metrics when the query fails, and
      otherwise a summary of the rows the query returned. */
  ghost predicate StatsOutcome(session: Option<Session>, lsaAccountId: Option<string>,
                               response: Option<seq<Row>>, m: LsaMetrics)
  {
    if !HasRefreshToken(session) then
      m == EmptyMetrics().(error := Some("Authentication required for LSA data access"))
    else if lsaAccountId.None? || lsaAccountId.value == "" then
      m == EmptyMetrics().(error := Some("LSA Account ID not configured"))
    else if response.None? then m == EmptyMetrics()
    else SummarisesRows(m, response.value)
  }

  /** `getLSAStats(session, dateRange)`.  The LSA account id, the local date,
      the UTC date string and the platform's answer to a query text
      (`None` when the query throws) are parameters.  The fallback point is
      never added, since an empty table means nothing was spent. */
  method GetLsaStats(session: Option<Session>, lsaAccountId: Option<string>, dateRange: string,
                     today: Calendar.Date, todayIso: string,
                     query: string -> Option<seq<Row>>) returns (m: LsaMetrics)
    requires today.Valid()
    ensures StatsOutcome(session, lsaAccountId, query(CampaignQuery(dateRange, today)), m)
  {
    if !HasRefreshToken(session) {
      m := EmptyMetrics().(error := Some("Authentication required for LSA data access"));
      return;
    }
    if lsaAccountId.None? || lsaAccountId.value == "" {
      m := EmptyMetrics().(error := Some("LSA Account ID not configured"));
      return;
    }
    var response := query(CampaignQuery(dateRange, today));
    if response.None? {
      m := EmptyMetrics();
      return;
    }
    var rows := response.value;
    var t := FoldRows(rows);
    DailyTableDates(rows);
    m := BuildMetrics(rows, t, todayIso);
    FoldSummarises(rows, t, todayIso);
  }

  /** The record built from the fold's totals summarises the rows. */
  lemma FoldSummarises(rows: seq<Row>, t: Totals, todayIso: string)
    requires t.dailyMetrics.Valid() && t.dailyMetrics.entries == DailyTable(rows)
    requires forall d :: d in DailyTable(rows) ==> DailyTable(rows)[d].date == d
    requires t.callLeads + t.messageLeads == EnteredConversions(rows)
    requires t.callLeads == EnteredCalls(rows)
    requires t.totalSpend == EnteredCost(rows)
    requires t.activeCampaigns == ActiveCount(rows)
    requires t.campaignBudget == BudgetTotal(rows)
    requires t.dailyMetrics.keys == [] ==> t.totalSpend == 0.0
    ensures SummarisesRows(BuildMetrics(rows, t, todayIso), rows)
  {
    KeysCardinality(t.dailyMetrics);
  }

  lemma KeysCardinality(o: JsObject.Object<DailyEntry>)
    requires o.Valid()
    ensures |o.keys| == |o.entries|
  {
    assert o.entries.Keys == set k | k in o.keys;
    Sorting.NoDupsSetSize(o.keys);
  }
}
