/** The advertising-platform campaign query (src/lib/google-ads.ts): date
    range aliases, the campaign query text, bidding-strategy decoding and
    the conversion of one result row into a campaign record. */
module GoogleAds {
  import opened Wrappers
  import opened Numeric
  import Text

  /** The strategy names `getBiddingStrategyType` produces. */
  datatype Strategy = TargetCpa | MaximizeConversions | MaximizeConversionValue | TargetRoas | Unknown {
    /** The string stored in a campaign's `biddingStrategyType`. */
    function Name(): string {
      match this
      case TargetCpa => "TARGET_CPA"
      case MaximizeConversions => "MAXIMIZE_CONVERSIONS"
      case MaximizeConversionValue => "MAXIMIZE_CONVERSION_VALUE"
      case TargetRoas => "TARGET_ROAS"
      case Unknown => "UNKNOWN"
    }
  }

  /** `getBiddingStrategyType(Number(code))`; `None` is a code that is absent
      or not an integer (`NaN`), which no table entry matches. */
  function StrategyOfCode(code: Option<int>): (s: Strategy)
    ensures s == TargetCpa <==> code == Some(6)
    ensures s == MaximizeConversions <==> code == Some(10)
    ensures s == MaximizeConversionValue <==> code == Some(11)
    ensures s == TargetRoas <==> code == Some(12)
  {
    match code
    case Some(6) => TargetCpa
    case Some(10) => MaximizeConversions
    case Some(11) => MaximizeConversionValue
    case Some(12) => TargetRoas
    case _ => Unknown
  }

  /** The `campaign` part of a result row.  Each target field stands for
      the nested `x?.y` path; `None` is an absent object or field. */
  datatype RawCampaign = RawCampaign(
    id: Option<string>,
    name: Option<string>,
    status: Option<string>,
    biddingStrategyType: Option<int>,
    targetCpaMicros: Option<NumberOrText>,                    // target_cpa.target_cpa_micros
    targetRoas: Option<NumberOrText>,                         // target_roas.target_roas
    maximizeConversionValueTargetRoas: Option<NumberOrText>,  // maximize_conversion_value.target_roas
    maximizeConversionsTargetCpaMicros: Option<NumberOrText>) // maximize_conversions.target_cpa_micros

  /** A `string | number` field of the platform's answer: a number, or a
      text together with the number `Number(text)` reads from it. */
  datatype NumberOrText = Num(n: real) | NumText(text: string, n: real)

  /** JavaScript truthiness of such a field: a number other than 0, or any
      non-empty text -- `"0"` included. */
  predicate TruthyField(f: Option<NumberOrText>) {
    f.Some? && (if f.value.Num? then f.value.n != 0.0 else f.value.text != "")
  }

  datatype RawMetrics = RawMetrics(costMicros: real, clicks: real, conversions: real, impressions: real)

  datatype RawSegments = RawSegments(date: Option<string>)

  /** One row of the campaign query's response. */
  datatype Row = Row(campaign: Option<RawCampaign>, metrics: Option<RawMetrics>, segments: Option<RawSegments>)

  /** The campaign record built from one row.  It has no `cpc` field. */
  datatype Campaign = Campaign(
    id: string,
    name: string,
    status: string,
    cost: real,
    clicks: real,
    conversions: real,
    impressions: real,
    date: string,
    accountId: string,
    targetCpa: Option<real>,
    targetRoas: Option<real>,
    biddingStrategyType: Strategy,
    maximizeConversionValue: bool)

  const Micros: real := 1000000.0

  predicate TruthyText(s: Option<string>) {
    s.Some? && s.value != ""
  }

  /** The range names `formatDateRange` recognises, lower-cased. */
  const RangeNames: set<string> :=
    {"last30", "last_30_days", "last7", "last_7_days", "today", "yesterday", "this_month"}

  /** `formatDateRange`: the query's `DURING` literal for a range name. */
  function FormatDateRange(dateRange: string): (r: string)
    ensures r in {"LAST_30_DAYS", "LAST_7_DAYS", "TODAY", "YESTERDAY", "THIS_MONTH"}
    ensures Text.Lower(dateRange) !in RangeNames ==> r == "LAST_30_DAYS"
  {
    match Text.Lower(dateRange)
    case "last30" => "LAST_30_DAYS"
    case "last_30_days" => "LAST_30_DAYS"
    case "last7" => "LAST_7_DAYS"
    case "last_7_days" => "LAST_7_DAYS"
    case "today" => "TODAY"
    case "yesterday" => "YESTERDAY"
    case "this_month" => "THIS_MONTH"
    case _ => "LAST_30_DAYS"
  }

  /** The range name is matched without regard to letter case. */
  lemma {:induction false} FormatDateRangeCaseInsensitive(dateRange: string)
    ensures FormatDateRange(Text.Lower(dateRange)) == FormatDateRange(dateRange)
  {
    Text.LowerIdempotent(dateRange);
  }

  const QueryHead: string :=
    "\n        SELECT \n" +
    "            campaign.id,\n" +
    "            campaign.name,\n" +
    "            campaign.status,\n" +
    "            campaign.bidding_strategy_type,\n" +
    "            campaign.target_cpa.target_cpa_micros,\n" +
    "            campaign.target_roas.target_roas,\n" +
    "            campaign.maximize_conversion_value.target_roas,\n" +
    "            campaign.maximize_conversions.target_cpa_micros,\n" +
    "            metrics.cost_micros,\n" +
    "            metrics.clicks,\n" +
    "            metrics.conversions,\n" +
    "            metrics.impressions,\n" +
    "            segments.date\n" +
    "        FROM campaign \n" +
    "        WHERE segments.date DURING "

  const QueryTail: string := "\n    "

  /** `buildCampaignQuery`: the range is embedded verbatim right after
      `DURING `, and the query ends with it (up to trailing whitespace). */
  function BuildCampaignQuery(dateRange: string): (q: string)
    ensures |q| == |QueryHead| + |dateRange| + |QueryTail|
    ensures q[..|QueryHead|] == QueryHead
    ensures q[|QueryHead|..|QueryHead| + |dateRange|] == dateRange
    ensures q[|QueryHead| - |"DURING "|..|QueryHead|] == "DURING "
  {
    var q := QueryHead + dateRange + QueryTail;
    assert q[..|QueryHead|] == QueryHead;
    assert q[|QueryHead|..|QueryHead| + |dateRange|] == dateRange;
    q
  }

  /** A truthy micros amount in currency units, else `undefined`. */
  function FromMicros(micros: Option<NumberOrText>): (r: Option<real>)
    ensures r.Some? <==> TruthyField(micros)
    ensures r.Some? ==> r.value * Micros == micros.value.n
  {
    if TruthyField(micros) then Some(micros.value.n / Micros) else None
  }

  /** A truthy ratio, as a number, else `undefined`. */
  function FromRatio(ratio: Option<NumberOrText>): (r: Option<real>)
    ensures r.Some? <==> TruthyField(ratio)
    ensures r.Some? ==> r.value == ratio.value.n
  {
    if TruthyField(ratio) then Some(ratio.value.n) else None
  }

  /** The number 0 leaves a target undefined, but the text `"0"` is truthy
      and sets a target of 0. */
  lemma ZeroTextSetsTarget()
    ensures FromMicros(Some(Num(0.0))) == None && FromRatio(Some(Num(0.0))) == None
    ensures FromMicros(Some(NumText("0", 0.0))) == Some(0.0)
    ensures FromRatio(Some(NumText("0", 0.0))) == Some(0.0)
  {
  }

  datatype Targets = Targets(targetCpa: Option<real>, targetRoas: Option<real>)

  /** The `switch` that assigns `targetCpa` or `targetRoas`: each strategy
      reads its own one field, so at most one target is ever set. */
  function ResolveTargets(strategy: Strategy, c: RawCampaign): (t: Targets)
    ensures !(t.targetCpa.Some? && t.targetRoas.Some?)
    ensures t.targetCpa.Some? ==> strategy == TargetCpa || strategy == MaximizeConversions
    ensures t.targetRoas.Some? ==> strategy == TargetRoas || strategy == MaximizeConversionValue
    ensures strategy == TargetCpa ==> t.targetCpa == FromMicros(c.targetCpaMicros)
    ensures strategy == MaximizeConversions ==> t.targetCpa == FromMicros(c.maximizeConversionsTargetCpaMicros)
    ensures strategy == TargetRoas ==> t.targetRoas == FromRatio(c.targetRoas)
    ensures strategy == MaximizeConversionValue ==> t.targetRoas == FromRatio(c.maximizeConversionValueTargetRoas)
  {
    match strategy
    case TargetCpa => Targets(FromMicros(c.targetCpaMicros), None)
    case MaximizeConversions => Targets(FromMicros(c.maximizeConversionsTargetCpaMicros), None)
    case TargetRoas => Targets(None, FromRatio(c.targetRoas))
    case MaximizeConversionValue => Targets(None, FromRatio(c.maximizeConversionValueTargetRoas))
    case Unknown => Targets(None, None)
  }

  /** Under a maximize strategy the sibling `target_*` field is never read:
      changing it leaves the resolved targets as they were. */
  lemma MaximizeIgnoresSiblingField(c: RawCampaign, cpaMicros: Option<NumberOrText>, roas: Option<NumberOrText>)
    ensures ResolveTargets(MaximizeConversions, c) == ResolveTargets(MaximizeConversions, c.(targetCpaMicros := cpaMicros))
    ensures ResolveTargets(MaximizeConversionValue, c) == ResolveTargets(MaximizeConversionValue, c.(targetRoas := roas))
  {
  }

  /** `status?.toString().toLowerCase() || 'unknown'`. */
  function StatusText(status: Option<string>): (r: string)
    ensures r != ""
    ensures r == "unknown" || (status.Some? && r == Text.Lower(status.value))
    ensures status.Some? && status.value != "" ==> r == Text.Lower(status.value)
  {
    if status.Some? && status.value != "" then Text.Lower(status.value) else "unknown"
  }

  /** The fields `formatCampaignResponse` insists on. */
  predicate HasRequiredData(row: Row) {
    && row.campaign.Some? && TruthyText(row.campaign.value.id) && TruthyText(row.campaign.value.name)
    && row.metrics.Some?
    && row.segments.Some? && TruthyText(row.segments.value.date)
  }

  /** `formatCampaignResponse(row, accountId)`; a thrown error is `Failure`. */
  function FormatCampaignResponse(row: Row, accountId: string): (r: Result<Campaign, string>)
    ensures r.Failure? <==> !HasRequiredData(row)
    ensures r.Failure? ==> r.error == "Missing required campaign data"
    ensures r.Success? ==>
      var c := row.campaign.value;
      var m := row.metrics.value;
      var strategy := StrategyOfCode(c.biddingStrategyType);
      && r.value.id == c.id.value && r.value.name == c.name.value
      && r.value.date == row.segments.value.date.value && r.value.accountId == accountId
      && r.value.cost * Micros == m.costMicros
      && r.value.clicks == m.clicks && r.value.conversions == m.conversions
      && r.value.impressions == m.impressions
      && r.value.status == StatusText(c.status)
      && r.value.biddingStrategyType == strategy
      && Targets(r.value.targetCpa, r.value.targetRoas) == ResolveTargets(strategy, c)
      && (r.value.maximizeConversionValue <==> strategy == MaximizeConversionValue)
  {
    if !HasRequiredData(row) then Failure("Missing required campaign data")
    else
      var c := row.campaign.value;
      var m := row.metrics.value;
      var strategy := StrategyOfCode(c.biddingStrategyType);
      var t := ResolveTargets(strategy, c);
      Success(Campaign(
        id := c.id.value,
        name := c.name.value,
        status := StatusText(c.status),
        cost := m.costMicros / Micros,
        clicks := m.clicks,
        conversions := m.conversions,
        impressions := m.impressions,
        date := row.segments.value.date.value,
        accountId := accountId,
        targetCpa := t.targetCpa,
        targetRoas := t.targetRoas,
        biddingStrategyType := strategy,
        maximizeConversionValue := strategy == MaximizeConversionValue))
  }

  /** The check `getCampaignStats` makes on each row before formatting it. */
  function CheckRow(row: Row, accountId: string): (r: Result<Campaign, string>)
    ensures r.Success? <==> HasRequiredData(row)
    ensures r.Success? ==> r == FormatCampaignResponse(row, accountId)
    ensures (row.campaign.None? || row.metrics.None? || row.segments.None?) ==>
              r == Failure("Invalid response format from Google Ads API")
  {
    if row.campaign.None? || row.metrics.None? || row.segments.None? then
      Failure("Invalid response format from Google Ads API")
    else FormatCampaignResponse(row, accountId)
  }

  /** `response.map(...)`: the first rejected row's error aborts the map. */
  function FormatRows(rows: seq<Row>, accountId: string): (r: Result<seq<Campaign>, string>)
    ensures r.Success? <==> forall i :: 0 <= i < |rows| ==> HasRequiredData(rows[i])
    ensures r.Success? ==> (|r.value| == |rows| &&
              forall i :: 0 <= i < |rows| ==> Success(r.value[i]) == FormatCampaignResponse(rows[i], accountId))
  {
    if rows == [] then Success([])
    else
      match CheckRow(rows[0], accountId)
      case Failure(e) => Failure(e)
      case Success(c) =>
        match FormatRows(rows[1..], accountId)
        case Failure(e) => Failure(e)
        case Success(cs) =>
          assert forall i :: 1 <= i < |rows| ==> rows[i] == rows[1..][i - 1];
          Success([c] + cs)
  }

  /** `getCampaignStats(session, accountId, dateRange)`.  `query` is the
      platform client's answer to a query text, `None` when the call throws.
      Every failure (no refresh token, a failed query, one bad row) is the
      same single error. */
  function GetCampaignStats(hasRefreshToken: bool, accountId: string, dateRange: string,
                            query: string -> Option<seq<Row>>): (r: Result<seq<Campaign>, string>)
    ensures r.Failure? ==> r.error == "Failed to fetch campaign stats"
    ensures r.Success? <==>
      && hasRefreshToken
      && query(BuildCampaignQuery(FormatDateRange(dateRange))).Some?
      && forall row :: row in query(BuildCampaignQuery(FormatDateRange(dateRange))).value ==> HasRequiredData(row)
    ensures r.Success? ==> forall c :: c in r.value ==> c.accountId == accountId
  {
    if !hasRefreshToken then Failure("Failed to fetch campaign stats")
    else
      match query(BuildCampaignQuery(FormatDateRange(dateRange)))
      case None => Failure("Failed to fetch campaign stats")
      case Some(rows) =>
        match FormatRows(rows, accountId)
        case Failure(_) => Failure("Failed to fetch campaign stats")
        case Success(cs) => Success(cs)
  }

  /** A successful call gives one record per returned row, in order, each
      formatted as `formatCampaignResponse` formats that row. */
  lemma GetCampaignStatsRows(hasRefreshToken: bool, accountId: string, dateRange: string,
                             query: string -> Option<seq<Row>>)
    requires GetCampaignStats(hasRefreshToken, accountId, dateRange, query).Success?
    ensures var rows := query(BuildCampaignQuery(FormatDateRange(dateRange))).value;
            var r := GetCampaignStats(hasRefreshToken, accountId, dateRange, query).value;
            && |r| == |rows|
            && forall i :: 0 <= i < |rows| ==> Success(r[i]) == FormatCampaignResponse(rows[i], accountId)
  { }
}
