/** What the two campaign tables (src/components/dashboard/CampaignTable.tsx
    and src/components/Dashboard/CampaignTable.tsx) have in common: the
    endpoint and body a target edit is posted with, how a campaign's target
    is shown, and the comparator behind the sortable columns. */
module CampaignTableCommon {
  import opened Wrappers
  import opened Numeric
  import opened Types
  import opened Sorting
  import opened SortPreferences
  import Text
  import GoogleAds
  import CampaignsApi
  import UpdateTcpa
  import UpdateTroas

  /** `String(campaign.biddingStrategyType || '')`. */
  function StrategyText(c: Campaign): string {
    c.biddingStrategyType.GetOr("")
  }

  const TcpaPath: string := "/api/campaigns/update-tcpa"
  const TroasPath: string := "/api/campaigns/update-troas"

  /** The JSON body of an edit; a field left `undefined` is `None`
      (`JSON.stringify` drops it). */
  datatype Payload = Payload(campaignId: string, accountId: Option<string>,
                             targetCpa: Option<real>, targetRoas: Option<real>)

  /** The edit is posted to the target-CPA endpoint. */
  predicate GoesToTcpa(c: Campaign) {
    StrategyText(c) == "TARGET_CPA" || (StrategyText(c) == "MAXIMIZE_CONVERSIONS" && c.targetCpa.Some?)
  }

  /** The edit would be posted to the target-ROAS endpoint, unless it
      already goes to the CPA one. */
  predicate GoesToTroas(c: Campaign) {
    StrategyText(c) == "TARGET_ROAS" || (StrategyText(c) == "MAXIMIZE_CONVERSION_VALUE" && c.targetRoas.Some?)
  }

  /** The request an edit to `value` sends, or `None` when the strategy
      names no endpoint.  A CPA goes as typed; a ROAS is divided by 100. */
  function Request(c: Campaign, value: real): (r: Option<(string, Payload)>)
    ensures r.Some? <==> GoesToTcpa(c) || GoesToTroas(c)
    ensures r.Some? ==> r.value.1.campaignId == c.id && r.value.1.accountId == c.accountId
    ensures r.Some? ==> (r.value.1.targetCpa.Some? != r.value.1.targetRoas.Some?)
    ensures r.Some? && r.value.0 == TcpaPath <==> GoesToTcpa(c)
    ensures r.Some? && r.value.0 == TroasPath <==> !GoesToTcpa(c) && GoesToTroas(c)
    ensures r.Some? && r.value.0 == TcpaPath ==> r.value.1.targetCpa == Some(value)
    ensures r.Some? && r.value.0 == TroasPath ==>
              r.value.1.targetRoas.Some? && r.value.1.targetRoas.value * 100.0 == value
  {
    if GoesToTcpa(c) then Some((TcpaPath, Payload(c.id, c.accountId, Some(value), None)))
    else if GoesToTroas(c) then Some((TroasPath, Payload(c.id, c.accountId, None, Some(value / 100.0))))
    else None
  }

  /** The body of `handleTargetEdit` after parsing: an empty endpoint means
      nothing is posted. */
  method BuildRequest(c: Campaign, numericValue: real) returns (endpoint: string, payload: Payload)
    ensures endpoint == "" <==> Request(c, numericValue).None?
    ensures endpoint != "" ==> Request(c, numericValue) == Some((endpoint, payload))
  {
    var biddingStrategy := StrategyText(c);
    endpoint := "";
    payload := Payload(c.id, c.accountId, None, None);
    if biddingStrategy == "TARGET_CPA" || (biddingStrategy == "MAXIMIZE_CONVERSIONS" && c.targetCpa.Some?) {
      endpoint := TcpaPath;
      payload := payload.(targetCpa := Some(numericValue));
    } else if biddingStrategy == "TARGET_ROAS"
              || (biddingStrategy == "MAXIMIZE_CONVERSION_VALUE" && c.targetRoas.Some?) {
      endpoint := TroasPath;
      payload := payload.(targetRoas := Some(numericValue / 100.0));
    }
  }

  /** The body the update-tcpa endpoint parses from a posted payload. */
  function TcpaBody(p: Payload): UpdateTcpa.Body {
    UpdateTcpa.Body(Some(p.campaignId), p.accountId, p.targetCpa)
  }

  /** The body the update-troas endpoint parses from a posted payload. */
  function TroasBody(p: Payload): UpdateTroas.Body {
    UpdateTroas.Body(Some(p.campaignId), p.accountId, p.targetRoas)
  }

  /** A CPA edit reaches the platform as the typed amount in micros. */
  lemma CpaEditWrittenAsTyped(c: Campaign, value: real, verb: HttpMethod, session: Option<Session>,
                              mutate: UpdateTcpa.MutateRequest -> Option<PlatformError>)
    requires GoesToTcpa(c)
    ensures var o := UpdateTcpa.Handle(verb, session, TcpaBody(Request(c, value).value.1), mutate);
            o.sent != [] ==> o.sent[0].operations[0].targetCpaMicros.value == value * UpdateTcpa.Micros
  {
  }

  /** A ROAS edit is divided by 100 here and again by the update-troas
      endpoint: whichever field the platform is sent holds a ten-thousandth
      of the typed value. */
  method SubmitRoasEdit(c: Campaign, value: real, verb: HttpMethod, session: Option<Session>,
                        lookup: string -> Result<seq<UpdateTroas.LookupRow>, PlatformError>,
                        update: UpdateTroas.UpdateOperation -> Option<PlatformError>)
    returns (r: UpdateTroas.Response, sent: seq<UpdateTroas.UpdateOperation>)
    requires !GoesToTcpa(c) && GoesToTroas(c)
    ensures |sent| <= 1
    ensures sent != [] && sent[0].targetRoasTargetRoas.Some? ==>
              sent[0].targetRoasTargetRoas.value * 10000.0 == value
    ensures sent != [] && sent[0].maximizeConversionValueTargetRoas.Some? ==>
              sent[0].maximizeConversionValueTargetRoas.value * 10000.0 == value
  {
    var endpoint, payload := BuildRequest(c, value);
    r, sent := UpdateTroas.Handle(verb, session, TroasBody(payload), lookup, update);
  }

  datatype TargetType = Cpa | Roas

  /** The target shown for a campaign: its value, its kind, and whether the
      strategy is a maximize one with no target (then it cannot be edited). */
  datatype TargetInfo = TargetInfo(targetValue: Option<real>, targetType: TargetType, isMaximize: bool)

  /** The strategy switch at the top of `renderTargetValue`. */
  function Target(c: Campaign): (t: TargetInfo)
    ensures t.targetType == Roas <==>
              StrategyText(c) == "TARGET_ROAS" || StrategyText(c) == "MAXIMIZE_CONVERSION_VALUE"
    ensures t.isMaximize ==> !Truthy(t.targetValue)
    ensures t.isMaximize <==>
              (StrategyText(c) == "MAXIMIZE_CONVERSIONS" && !Truthy(c.targetCpa))
              || (StrategyText(c) == "MAXIMIZE_CONVERSION_VALUE" && !Truthy(c.targetRoas))
    ensures t.targetValue.Some? ==> t.targetValue == (if t.targetType == Roas then c.targetRoas else c.targetCpa)
  {
    var s := StrategyText(c);
    if s == "TARGET_CPA" then TargetInfo(c.targetCpa, Cpa, false)
    else if s == "TARGET_ROAS" then TargetInfo(c.targetRoas, Roas, false)
    else if s == "MAXIMIZE_CONVERSIONS" then TargetInfo(c.targetCpa, Cpa, !Truthy(c.targetCpa))
    else if s == "MAXIMIZE_CONVERSION_VALUE" then TargetInfo(c.targetRoas, Roas, !Truthy(c.targetRoas))
    else TargetInfo(None, Cpa, false)
  }

  /** One of the four strategies the tables know. */
  predicate KnownStrategy(c: Campaign) {
    StrategyText(c) in {"TARGET_CPA", "TARGET_ROAS", "MAXIMIZE_CONVERSIONS", "MAXIMIZE_CONVERSION_VALUE"}
  }

  /** How the display and the edit agree: an editable campaign with a known
      strategy always posts, to the endpoint of the kind it shows; only a
      known strategy posts; and a campaign shown as "Max ..." posts only
      when its stored target is exactly 0. */
  lemma EditRouting(c: Campaign, value: real)
    ensures !Target(c).isMaximize && KnownStrategy(c) ==> Request(c, value).Some?
    ensures Request(c, value).Some? ==> KnownStrategy(c)
    ensures Request(c, value).Some? ==>
              (Request(c, value).value.0 == TcpaPath <==> Target(c).targetType == Cpa)
    ensures Target(c).isMaximize && Request(c, value).Some? ==>
              c.targetCpa == Some(0.0) || c.targetRoas == Some(0.0)
  {
  }

  /** For a record the platform client produced, an edit is posted
      exactly when its strategy is a known one and it is editable -- or
      shown as "Max ..." with a target of 0, which only the text `"0"`
      produces -- and it goes to the CPA endpoint exactly for the two CPA
      strategies. */
  lemma PlatformRecordRouting(row: GoogleAds.Row, accountId: string, value: real)
    requires GoogleAds.FormatCampaignResponse(row, accountId).Success?
    ensures var g := GoogleAds.FormatCampaignResponse(row, accountId).value;
            var c := CampaignsApi.FromPlatform(g);
            && (Request(c, value).Some? <==>
                  g.biddingStrategyType != GoogleAds.Unknown
                  && (!Target(c).isMaximize || Target(c).targetValue == Some(0.0)))
            && (GoesToTcpa(c) <==>
                  g.biddingStrategyType == GoogleAds.TargetCpa
                  || (g.biddingStrategyType == GoogleAds.MaximizeConversions && g.targetCpa.Some?))
  {
    var g := GoogleAds.FormatCampaignResponse(row, accountId).value;
    var c := CampaignsApi.FromPlatform(g);
    assert GoogleAds.Targets(g.targetCpa, g.targetRoas)
        == GoogleAds.ResolveTargets(g.biddingStrategyType, row.campaign.value);
    assert StrategyText(c) == g.biddingStrategyType.Name();
  }

  /** The text of the target cell when it is not being edited; the currency
      format itself (`Intl.NumberFormat`) is not modelled. */
  datatype Caption = Words(text: string) | Percent(units: int) | Currency(amount: real)

  function CaptionOf(t: TargetInfo): (cap: Caption)
    ensures t.isMaximize ==> cap.Words? && |cap.text| > 4 && cap.text[..4] == "Max "
    ensures !t.isMaximize && !Truthy(t.targetValue) ==> cap.Words? && |cap.text| > 4 && cap.text[..4] == "Set "
    ensures cap.Percent? <==> !t.isMaximize && Truthy(t.targetValue) && t.targetType == Roas
    ensures cap.Currency? <==> !t.isMaximize && Truthy(t.targetValue) && t.targetType == Cpa
    ensures cap.Percent? ==>
              t.targetValue.value * 100.0 - 0.5 <= cap.units as real <= t.targetValue.value * 100.0 + 0.5
    ensures cap.Currency? ==> cap.amount == t.targetValue.value
  {
    if t.isMaximize then Words(if t.targetType == Roas then "Max Conv. Value" else "Max Conversions")
    else if Truthy(t.targetValue) then
      (if t.targetType == Roas then Percent(FixedUnits(t.targetValue.value * 100.0, 0))
       else assert t.targetType == Cpa; Currency(t.targetValue.value))
    else Words(if t.targetType == Roas then "Set ROAS" else "Set CPA")
  }

  /** The numeric properties of a campaign record. */
  const PropertyNames: set<string> :=
    {"cost", "clicks", "conversions", "impressions", "cpc", "targetCpa", "targetRoas", "callCount", "messageCount"}

  /** `campaign[field] ?? 0` for the numeric properties a sort field can
      name; a name that is no numeric property reads as 0. */
  function Property(c: Campaign, field: string): (k: real)
    ensures field == "cost" ==> k == OrZero(c.cost)
    ensures field == "targetCpa" ==> k == OrZero(c.targetCpa)
    ensures field !in PropertyNames ==> k == 0.0
  {
    if field == "cost" then OrZero(c.cost)
    else if field == "clicks" then OrZero(c.clicks)
    else if field == "conversions" then OrZero(c.conversions)
    else if field == "impressions" then OrZero(c.impressions)
    else if field == "cpc" then OrZero(c.cpc)
    else if field == "targetCpa" then OrZero(c.targetCpa)
    else if field == "targetRoas" then OrZero(c.targetRoas)
    else if field == "callCount" then OrZero(c.callCount)
    else if field == "messageCount" then OrZero(c.messageCount)
    else 0.0
  }

  /** `sortPreference.direction === 'desc' ? -1 : 1`. */
  function Multiplier(pref: SortPreference): real {
    if pref.direction == Desc then -1.0 else 1.0
  }

  /** The comparator of a table whose numeric column keys are `key`; the
      `name` column compares names. */
  function Compare(key: (Campaign, string) -> real, pref: SortPreference, a: Campaign, b: Campaign): real {
    Multiplier(pref) * (if pref.field == "name" then Text.Compare(a.name, b.name) as real
                        else key(a, pref.field) - key(b, pref.field))
  }

  /** `a` may stay before `b` in the sorted table. */
  function Order(key: (Campaign, string) -> real, pref: SortPreference): (Campaign, Campaign) -> bool {
    (a, b) => Compare(key, pref, a, b) <= 0.0
  }

  /** What the comparator means: names in character order, numbers by key,
      each reversed for a descending preference. */
  lemma OrderMeaning(key: (Campaign, string) -> real, pref: SortPreference, a: Campaign, b: Campaign)
    ensures pref.field == "name" && pref.direction == Asc ==> (Order(key, pref)(a, b) <==> Text.LessEq(a.name, b.name))
    ensures pref.field == "name" && pref.direction == Desc ==> (Order(key, pref)(a, b) <==> Text.LessEq(b.name, a.name))
    ensures pref.field != "name" && pref.direction == Asc ==>
              (Order(key, pref)(a, b) <==> key(a, pref.field) <= key(b, pref.field))
    ensures pref.field != "name" && pref.direction == Desc ==>
              (Order(key, pref)(a, b) <==> key(a, pref.field) >= key(b, pref.field))
  {
    Text.LessEqTotal(a.name, a.name);
    Text.LessEqTotal(b.name, b.name);
  }

  lemma OrderTotalPreorder(key: (Campaign, string) -> real, pref: SortPreference)
    ensures TotalPreorder(Order(key, pref))
  {
    var leq := Order(key, pref);
    forall a, b ensures leq(a, b) || leq(b, a) {
      OrderMeaning(key, pref, a, b);
      OrderMeaning(key, pref, b, a);
      Text.LessEqTotal(a.name, b.name);
    }
    forall a, b, c | leq(a, b) && leq(b, c) ensures leq(a, c) {
      OrderMeaning(key, pref, a, b);
      OrderMeaning(key, pref, b, c);
      OrderMeaning(key, pref, a, c);
      if pref.field == "name" {
        if pref.direction == Asc {
          Text.LessEqTransitive(a.name, b.name, c.name);
        } else {
          Text.LessEqTransitive(c.name, b.name, a.name);
        }
      }
    }
  }

  /** `[...campaigns].sort(comparator)`: the same records, in the order the
      preference asks for. */
  function SortCampaigns(cs: seq<Campaign>, key: (Campaign, string) -> real, pref: SortPreference)
    : (r: seq<Campaign>)
    ensures multiset(r) == multiset(cs)
    ensures pref.field == "name" && pref.direction == Asc ==>
              forall i, j :: 0 <= i < j < |r| ==> Text.LessEq(r[i].name, r[j].name)
    ensures pref.field == "name" && pref.direction == Desc ==>
              forall i, j :: 0 <= i < j < |r| ==> Text.LessEq(r[j].name, r[i].name)
    ensures pref.field != "name" && pref.direction == Asc ==>
              forall i, j :: 0 <= i < j < |r| ==> key(r[i], pref.field) <= key(r[j], pref.field)
    ensures pref.field != "name" && pref.direction == Desc ==>
              forall i, j :: 0 <= i < j < |r| ==> key(r[i], pref.field) >= key(r[j], pref.field)
  {
    OrderTotalPreorder(key, pref);
    SortSorted(cs, Order(key, pref));
    SortedMeaning(Sort(cs, Order(key, pref)), key, pref);
    Sort(cs, Order(key, pref))
  }

  lemma SortedMeaning(r: seq<Campaign>, key: (Campaign, string) -> real, pref: SortPreference)
    requires SortedBy(r, Order(key, pref))
    ensures forall i, j :: 0 <= i < j < |r| ==> OrderMeaningAt(key, pref, r[i], r[j])
  {
    forall i, j | 0 <= i < j < |r| ensures OrderMeaningAt(key, pref, r[i], r[j]) {
      OrderMeaning(key, pref, r[i], r[j]);
    }
  }

  /** The relation `OrderMeaning` gives `Order`, as one predicate. */
  predicate OrderMeaningAt(key: (Campaign, string) -> real, pref: SortPreference, a: Campaign, b: Campaign) {
    if pref.field == "name" then
      (if pref.direction == Asc then Text.LessEq(a.name, b.name) else Text.LessEq(b.name, a.name))
    else
      (if pref.direction == Asc then key(a, pref.field) <= key(b, pref.field)
       else key(a, pref.field) >= key(b, pref.field))
  }
}
