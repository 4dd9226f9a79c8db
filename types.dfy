/** Data shapes shared by the server handlers and the dashboard (the records
    of src/types/campaign.ts, src/types/chart.ts and src/types/lsa.ts). */
module Types {
  import opened Wrappers

  /** The signed-in user's session; handlers see `None` when there is none. */
  datatype Session = Session(refreshToken: Option<string>)

  predicate HasRefreshToken(s: Option<Session>) {
    s.Some? && s.value.refreshToken.Some? && s.value.refreshToken.value != ""
  }

  datatype HttpMethod = Get | Post | Put | Delete | Patch

  datatype TrendDirection = Up | Down | Stable

  /** `CPCTrend`; `lastUpdated` is a timestamp in milliseconds. */
  datatype CpcTrend = CpcTrend(currentValue: real, previousValue: real,
                               direction: TrendDirection, lastUpdated: int)

  datatype ConversionAction = ConversionAction(name: string, value: real, category: Option<string>)

  datatype ConversionTypes = ConversionTypes(calls: real, messages: real)

  datatype CampaignTypes = CampaignTypes(lsa: real, ppc: real)

  /** `ChartData`: one day of figures. */
  datatype ChartData = ChartData(date: string, cost: real, clicks: real, conversions: real,
                                 impressions: real, conversionTypes: Option<ConversionTypes>,
                                 campaignTypes: Option<CampaignTypes>)

  /** A campaign record as the campaigns endpoint sends it and the dashboard
      reads it.  Fields the producers may leave out are optional;
      `conversionTypes`, `isLsa`, `callCount` and `messageCount` are the
      extra fields the dashboard components look for. */
  datatype Campaign = Campaign(
    id: string,
    name: string,
    status: string,
    cost: Option<real>,
    clicks: Option<real>,
    conversions: Option<real>,
    impressions: Option<real>,
    date: string,
    accountId: Option<string>,
    targetCpa: Option<real>,
    targetRoas: Option<real>,
    biddingStrategyType: Option<string>,
    maximizeConversionValue: Option<bool>,
    cpc: Option<real>,
    cpcTrend: Option<CpcTrend>,
    conversionActions: Option<seq<ConversionAction>>,
    conversionTypes: Option<ConversionTypes>,
    isLsa: bool,
    callCount: Option<real>,
    messageCount: Option<real>)

  /** An error the platform client throws: `details[i].errors[j].message`,
      `errors[j].message` and `message`, each possibly absent. */
  datatype ErrorItem = ErrorItem(message: Option<string>)

  datatype ErrorDetail = ErrorDetail(errors: Option<seq<ErrorItem>>)

  datatype PlatformError = PlatformError(details: Option<seq<ErrorDetail>>, errors: Option<seq<ErrorItem>>,
                                         message: Option<string>)

  /** The error `getGoogleAdsCustomer` throws for a session without a
      refresh token. */
  const AuthRequired: PlatformError :=
    PlatformError(None, None, Some("Google Ads authentication required. Please check your credentials."))
}
