/** The target-ROAS update endpoint (src/pages/api/campaigns/update-troas.ts):
    request checks, the campaign lookup, the ROAS-support rule, the choice
    of the one field to write and the error-message extraction. */
module UpdateTroas {
  import opened Wrappers
  import opened Types

  /** The endpoint's own strategy-code table, which numbers the strategies
      differently from the campaign query's table. */
  function LocalStrategyName(code: Option<int>): (name: Option<string>)
    ensures name.Some? <==> code.Some? && 0 <= code.value <= 12
    ensures name == Some("MAXIMIZE_CONVERSIONS") <==> code == Some(5)
    ensures name == Some("MAXIMIZE_CONVERSION_VALUE") <==> code == Some(6)
    ensures name == Some("TARGET_CPA") <==> code == Some(7)
    ensures name == Some("TARGET_ROAS") <==> code == Some(9)
  {
    match code
    case Some(0) => Some("UNSPECIFIED")
    case Some(1) => Some("UNKNOWN")
    case Some(2) => Some("MANUAL_CPC")
    case Some(3) => Some("MANUAL_CPM")
    case Some(4) => Some("MANUAL_CPV")
    case Some(5) => Some("MAXIMIZE_CONVERSIONS")
    case Some(6) => Some("MAXIMIZE_CONVERSION_VALUE")
    case Some(7) => Some("TARGET_CPA")
    case Some(8) => Some("TARGET_IMPRESSION_SHARE")
    case Some(9) => Some("TARGET_ROAS")
    case Some(10) => Some("TARGET_SPEND")
    case Some(11) => Some("PERCENT_CPC")
    case Some(12) => Some("TARGET_CPM")
    case _ => None
  }

  /** The name as a template literal prints it; an unlisted code prints as
      `undefined`. */
  function NameText(name: Option<string>): string {
    name.GetOr("undefined")
  }

  /** The looked-up campaign: its strategy code and the two ROAS fields
      (`None` when the field or its parent object is absent). */
  datatype LookupRow = LookupRow(biddingStrategyType: Option<int>, targetRoas: Option<real>,
                                 maximizeConversionValueTargetRoas: Option<real>)

  const LookupHead: string :=
    "\n            SELECT \n                campaign.id,\n                campaign.name,\n"
    + "                campaign.bidding_strategy_type,\n                campaign.target_roas.target_roas,\n"
    + "                campaign.maximize_conversion_value.target_roas\n            FROM campaign\n"
    + "            WHERE campaign.id = "

  const LookupTail: string := "\n        "

  /** The lookup query for one campaign id: the id is spliced in verbatim
      as the `WHERE` value. */
  function LookupQuery(campaignId: string): (q: string)
    ensures |q| == |LookupHead| + |campaignId| + |LookupTail|
    ensures q[..|LookupHead|] == LookupHead
    ensures q[|LookupHead|..|LookupHead| + |campaignId|] == campaignId
  {
    var q := LookupHead + campaignId + LookupTail;
    assert q[..|LookupHead|] == LookupHead;
    assert q[|LookupHead|..|LookupHead| + |campaignId|] == campaignId;
    q
  }

  /** A campaign accepts a ROAS target iff its strategy is a ROAS strategy
      or it already carries either ROAS field. */
  predicate SupportsTargetRoas(row: LookupRow) {
    var name := LocalStrategyName(row.biddingStrategyType);
    || name == Some("TARGET_ROAS")
    || name == Some("MAXIMIZE_CONVERSION_VALUE")
    || row.targetRoas.Some?
    || row.maximizeConversionValueTargetRoas.Some?
  }

  /** The update sent for one campaign.  The value stands for the decimal
      string `toString()` prints. */
  datatype UpdateOperation = UpdateOperation(resourceName: string,
                                             maximizeConversionValueTargetRoas: Option<real>,
                                             targetRoasTargetRoas: Option<real>)

  function ResourceName(accountId: string, campaignId: string): (r: string)
    ensures |r| >= 10 + |campaignId| && r[..10] == "customers/" && r[|r| - |campaignId|..] == campaignId
  {
    var r := "customers/" + accountId + "/campaigns/" + campaignId;
    assert r[..10] == "customers/";
    assert r[|r| - |campaignId|..] == campaignId;
    r
  }

  /** Whether the update goes to the maximize-conversion-value field. */
  predicate WritesMaximizeField(row: LookupRow) {
    row.maximizeConversionValueTargetRoas.Some?
    || LocalStrategyName(row.biddingStrategyType) == Some("MAXIMIZE_CONVERSION_VALUE")
  }

  /** Builds the operation: first the resource name, then exactly one of the
      two ROAS fields, holding the value. */
  method BuildUpdateOperation(row: LookupRow, accountId: string, campaignId: string, value: real)
    returns (op: UpdateOperation)
    ensures op.resourceName == ResourceName(accountId, campaignId)
    ensures op.maximizeConversionValueTargetRoas.Some? != op.targetRoasTargetRoas.Some?
    ensures op.maximizeConversionValueTargetRoas.Some? <==> WritesMaximizeField(row)
    ensures op.maximizeConversionValueTargetRoas.Some? ==> op.maximizeConversionValueTargetRoas.value == value
    ensures op.targetRoasTargetRoas.Some? ==> op.targetRoasTargetRoas.value == value
  {
    op := UpdateOperation(ResourceName(accountId, campaignId), None, None);
    if row.maximizeConversionValueTargetRoas.Some?
       || LocalStrategyName(row.biddingStrategyType) == Some("MAXIMIZE_CONVERSION_VALUE") {
      op := op.(maximizeConversionValueTargetRoas := Some(value));
    } else {
      op := op.(targetRoasTargetRoas := Some(value));
    }
  }

  const DefaultErrorMessage: string := "An error occurred while updating the campaign"

  /** The first message of the first error of the first detail, if any. */
  function DetailMessage(e: PlatformError): Option<string> {
    if e.details.Some? && |e.details.value| > 0 && e.details.value[0].errors.Some?
       && |e.details.value[0].errors.value| > 0 then e.details.value[0].errors.value[0].message
    else None
  }

  /** The first message of the first top-level error, if any. */
  function ErrorsMessage(e: PlatformError): Option<string> {
    if e.errors.Some? && |e.errors.value| > 0 then e.errors.value[0].message else None
  }

  predicate NonEmpty(s: Option<string>) {
    s.Some? && s.value != ""
  }

  /** The reported message: the first non-empty of the detail message, the
      errors message and the message, else the default text. */
  function ErrorMessage(e: PlatformError): (m: string)
    ensures NonEmpty(DetailMessage(e)) ==> m == DetailMessage(e).value
    ensures !NonEmpty(DetailMessage(e)) && NonEmpty(ErrorsMessage(e)) ==> m == ErrorsMessage(e).value
    ensures !NonEmpty(DetailMessage(e)) && !NonEmpty(ErrorsMessage(e)) && NonEmpty(e.message) ==> m == e.message.value
    ensures !NonEmpty(DetailMessage(e)) && !NonEmpty(ErrorsMessage(e)) && !NonEmpty(e.message) ==>
              m == DefaultErrorMessage
    ensures m != ""
  {
    if NonEmpty(DetailMessage(e)) then DetailMessage(e).value
    else if NonEmpty(ErrorsMessage(e)) then ErrorsMessage(e).value
    else if NonEmpty(e.message) then e.message.value
    else DefaultErrorMessage
  }

  /** The request body; a field the client left out is `None`. */
  datatype Body = Body(campaignId: Option<string>, accountId: Option<string>, targetRoas: Option<real>)

  datatype Response = Ok | Error(status: nat, message: string)

  /** The handler.  `lookup` is the platform's answer to a query text and
      `update` its answer to an update (`None` on success); `sent` records
      the updates the handler issued. */
  method Handle(verb: HttpMethod, session: Option<Session>, body: Body,
                lookup: string -> Result<seq<LookupRow>, PlatformError>,
                update: UpdateOperation -> Option<PlatformError>)
    returns (r: Response, sent: seq<UpdateOperation>)
    ensures |sent| <= 1
    ensures verb != Post ==> r == Error(405, "Method not allowed") && sent == []
    ensures verb == Post && session.None? ==> r == Error(401, "Unauthorized") && sent == []
    ensures verb == Post && session.Some? && !Complete(body) ==>
              r == Error(400, "Missing required fields") && sent == []
    ensures verb == Post && session.Some? && Complete(body) && !HasRefreshToken(session) ==>
              r == Error(500, ErrorMessage(AuthRequired)) && sent == []
    ensures sent != [] ==>
      && verb == Post && session.Some? && Complete(body) && HasRefreshToken(session)
      && lookup(LookupQuery(body.campaignId.value)).Success?
      && |lookup(LookupQuery(body.campaignId.value)).value| > 0
      && var row := lookup(LookupQuery(body.campaignId.value)).value[0];
         && SupportsTargetRoas(row)
         && sent[0].resourceName == ResourceName(body.accountId.value, body.campaignId.value)
         && (sent[0].maximizeConversionValueTargetRoas.Some? <==> WritesMaximizeField(row))
         && (sent[0].maximizeConversionValueTargetRoas.Some? != sent[0].targetRoasTargetRoas.Some?)
         && (sent[0].maximizeConversionValueTargetRoas.Some? ==>
               sent[0].maximizeConversionValueTargetRoas.value == body.targetRoas.value / 100.0)
         && (sent[0].targetRoasTargetRoas.Some? ==> sent[0].targetRoasTargetRoas.value == body.targetRoas.value / 100.0)
         && r == (if update(sent[0]).None? then Ok else Error(500, ErrorMessage(update(sent[0]).value)))
    ensures verb == Post && session.Some? && Complete(body) && HasRefreshToken(session) ==>
      match lookup(LookupQuery(body.campaignId.value))
      case Failure(e) => r == Error(500, ErrorMessage(e)) && sent == []
      case Success(rows) =>
        if rows == [] then r == Error(404, "Campaign not found") && sent == []
        else if !SupportsTargetRoas(rows[0]) then
          r == Error(400, "Campaign does not support Target ROAS updates. Current strategy: "
                          + NameText(LocalStrategyName(rows[0].biddingStrategyType)))
          && sent == []
        else |sent| == 1
  {
    sent := [];
    if verb != Post {
      return Error(405, "Method not allowed"), sent;
    }
    if session.None? {
      return Error(401, "Unauthorized"), sent;
    }
    if !Complete(body) {
      return Error(400, "Missing required fields"), sent;
    }
    var campaignId, accountId := body.campaignId.value, body.accountId.value;
    var targetRoasValue := body.targetRoas.value / 100.0;
    if !HasRefreshToken(session) {
      return Error(500, ErrorMessage(AuthRequired)), sent;
    }
    var found := lookup(LookupQuery(campaignId));
    if found.Failure? {
      return Error(500, ErrorMessage(found.error)), sent;
    }
    if found.value == [] {
      return Error(404, "Campaign not found"), sent;
    }
    var row := found.value[0];
    var name := LocalStrategyName(row.biddingStrategyType);
    if !SupportsTargetRoas(row) {
      return Error(400, "Campaign does not support Target ROAS updates. Current strategy: " + NameText(name)), sent;
    }
    var op := BuildUpdateOperation(row, accountId, campaignId, targetRoasValue);
    sent := [op];
    var outcome := update(op);
    if outcome.Some? {
      return Error(500, ErrorMessage(outcome.value)), sent;
    }
    r := Ok;
  }

  /** `campaignId` and `accountId` truthy and `targetRoas` defined. */
  predicate Complete(body: Body) {
    body.campaignId.Some? && body.campaignId.value != ""
    && body.accountId.Some? && body.accountId.value != ""
    && body.targetRoas.Some?
  }

  /** Exactly one of the two fields is ever written, and which one depends
      only on the looked-up campaign: a campaign already using the
      maximize-conversion-value field keeps using it. */
  lemma FieldChoiceStable(row: LookupRow)
    requires row.maximizeConversionValueTargetRoas.Some?
    ensures SupportsTargetRoas(row) && WritesMaximizeField(row)
  {
  }
}
