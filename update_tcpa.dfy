/** The target-CPA update endpoint (src/pages/api/campaigns/update-tcpa.ts):
    one mutate request that always writes the maximize-conversions CPA
    field, with no check of the campaign's strategy or of the body. */
module UpdateTcpa {
  import opened Wrappers
  import opened Types

  const Micros: real := 1000000.0

  /** The request body; a field the client left out is `None`. */
  datatype Body = Body(campaignId: Option<string>, accountId: Option<string>, targetCpa: Option<real>)

  /** One mutate operation; `targetCpaMicros` is `None` when the body had
      no number (the product is then `NaN`). */
  datatype Operation = Operation(resourceName: string, targetCpaMicros: Option<real>, updateMaskPaths: seq<string>)

  datatype MutateRequest = MutateRequest(customerId: Option<string>, operations: seq<Operation>)

  datatype Response =
    | Ok
    | Error(status: nat, error: string, details: seq<ErrorItem>, message: string)

  /** A template literal prints an absent field as `undefined`. */
  function Text(s: Option<string>): string {
    s.GetOr("undefined")
  }

  function ResourceName(accountId: Option<string>, campaignId: Option<string>): (r: string)
    ensures |r| >= 10 + |Text(campaignId)| && r[..10] == "customers/"
    ensures r[|r| - |Text(campaignId)|..] == Text(campaignId)
  {
    var r := "customers/" + Text(accountId) + "/campaigns/" + Text(campaignId);
    assert r[..10] == "customers/";
    assert r[|r| - |Text(campaignId)|..] == Text(campaignId);
    r
  }

  const MaskPath: string := "maximize_conversions.target_cpa_micros"

  /** The mutate request for a body. */
  function Request(body: Body): (m: MutateRequest)
    ensures m.customerId == body.accountId && |m.operations| == 1
    ensures m.operations[0].resourceName == ResourceName(body.accountId, body.campaignId)
    ensures m.operations[0].updateMaskPaths == [MaskPath]
    ensures body.targetCpa.Some? ==>
              (m.operations[0].targetCpaMicros.Some?
               && m.operations[0].targetCpaMicros.value / Micros == body.targetCpa.value)
    ensures body.targetCpa.None? ==> m.operations[0].targetCpaMicros.None?
  {
    var micros := if body.targetCpa.Some? then Some(body.targetCpa.value * Micros) else None;
    MutateRequest(body.accountId,
                  [Operation(ResourceName(body.accountId, body.campaignId), micros, [MaskPath])])
  }

  /** The error reply: the error's message or a default text, its `errors`
      list or none, and a fixed explanation. */
  function ErrorReply(e: PlatformError): (r: Response)
    ensures r.Error? && r.status == 500
    ensures r.error == (if e.message.Some? && e.message.value != "" then e.message.value
                        else "Failed to update target CPA")
    ensures r.details == e.errors.GetOr([])
    ensures r.message == "There was an error updating the campaign target CPA"
  {
    Error(500, if e.message.Some? && e.message.value != "" then e.message.value else "Failed to update target CPA",
          e.errors.GetOr([]), "There was an error updating the campaign target CPA")
  }

  /** The handler as a function of the request and the platform's answer to
      the mutate call (`None` on success); `sent` is the calls made. */
  datatype Outcome = Outcome(response: Response, sent: seq<MutateRequest>)

  function Handle(verb: HttpMethod, session: Option<Session>, body: Body,
                  mutate: MutateRequest -> Option<PlatformError>): (o: Outcome)
    ensures |o.sent| <= 1
    ensures verb != Post ==> o == Outcome(Error(405, "Method not allowed", [], ""), [])
    ensures verb == Post && session.None? ==> o == Outcome(Error(401, "Unauthorized", [], ""), [])
    ensures verb == Post && session.Some? && !HasRefreshToken(session) ==>
              o == Outcome(ErrorReply(AuthRequired), [])
    ensures o.sent != [] <==> verb == Post && HasRefreshToken(session)
    ensures o.sent != [] ==>
              (o.sent == [Request(body)]
               && o.response == (if mutate(Request(body)).None? then Ok else ErrorReply(mutate(Request(body)).value)))
  {
    if verb != Post then Outcome(Error(405, "Method not allowed", [], ""), [])
    else if session.None? then Outcome(Error(401, "Unauthorized", [], ""), [])
    else if !HasRefreshToken(session) then Outcome(ErrorReply(AuthRequired), [])
    else
      var request := Request(body);
      match mutate(request)
      case None => Outcome(Ok, [request])
      case Some(e) => Outcome(ErrorReply(e), [request])
  }
}
