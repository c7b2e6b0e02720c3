/**
 * The lead controller. Leads are not stored locally: a submitted lead is
 * forwarded to an external spreadsheet service (the sink), and the listing reads
 * them back from it. The sink is a parameter: `submitLead` gets it as a function
 * of the forwarded payload, `getAllLeads` gets the sink's answer directly. The
 * four handlers that the sink cannot serve answer 501 whatever the request.
 */
module LeadController {
  import opened Wrappers
  import opened Http

  /** The fields `submitLead` reads from the request body; a missing key is `None`. */
  datatype LeadBody = LeadBody(
    fullName: Option<Json>,
    contactNumber: Option<Json>,
    propertyType: Option<Json>,
    location: Option<Json>,
    propertyId: Option<Json>,
    propertyTitle: Option<Json>)

  /** The object sent to the sink. */
  datatype LeadPayload = LeadPayload(
    fullName: Json,
    contactNumber: Json,
    propertyType: Json,
    location: Json,
    propertyId: Json,
    propertyTitle: Json,
    status: string)

  /** The parts of the sink's JSON answer the handlers read. */
  datatype SinkReply = SinkReply(
    success: Option<Json>,
    message: Option<string>,
    data: Option<Json>,
    count: Option<Json>)

  /** The sink either answers, or the request or the parsing of its answer throws with a message. */
  datatype SinkOutcome = Replied(reply: SinkReply) | Failed(errorMessage: string)

  const RequiredMessage := "All fields are required (fullName, contactNumber, propertyType, location)"
  const SubmittedMessage := "Lead submitted successfully to Google Sheets"
  const SubmitFallback := "Failed to submit to Google Sheets"
  const SubmitErrorFallback := "Error submitting lead"
  const FetchFallback := "Failed to fetch leads"
  const LeadByIdUnsupported := "This feature is not available with Google Sheets integration. Use GET /api/leads to fetch all leads."
  const StatusUpdateUnsupported := "This feature is not available with Google Sheets integration. Please update directly in Google Sheets."
  const DownloadUnsupported := "Data is stored in Google Sheets. Access your Google Sheet directly to view/download the data."
  const DeleteUnsupported := "This feature is not available with Google Sheets integration. Please delete directly in Google Sheets."

  /** A body key that is present and truthy. */
  predicate Given(x: Option<Json>) {
    x.Some? && Truthy(x.value)
  }

  /** The four fields a lead must carry. */
  predicate Complete(body: LeadBody) {
    Given(body.fullName) && Given(body.contactNumber) && Given(body.propertyType) && Given(body.location)
  }

  /**
   * The payload forwarded for a complete body: the four required fields as given,
   * the property reference `null` where it is missing or falsy, and status `new`.
   */
  function PayloadOf(body: LeadBody): (p: LeadPayload)
    requires Complete(body)
    ensures p.fullName == body.fullName.value && p.contactNumber == body.contactNumber.value
    ensures p.propertyType == body.propertyType.value && p.location == body.location.value
    ensures Given(body.propertyId) ==> p.propertyId == body.propertyId.value
    ensures !Given(body.propertyId) ==> p.propertyId == JNull
    ensures Given(body.propertyTitle) ==> p.propertyTitle == body.propertyTitle.value
    ensures !Given(body.propertyTitle) ==> p.propertyTitle == JNull
    ensures p.status == "new"
  {
    LeadPayload(body.fullName.value, body.contactNumber.value, body.propertyType.value, body.location.value,
                OrElse(body.propertyId, Truthy, JNull), OrElse(body.propertyTitle, Truthy, JNull), "new")
  }

  /**
   * `submitLead`: 400 without asking the sink when a required field is missing
   * or falsy; 201 with the sink's `data` when the sink answers with a truthy
   * `success`; 500 otherwise, always with a non-empty message.
   */
  function SubmitLead(body: LeadBody, sink: LeadPayload -> SinkOutcome): (r: Reply<Json>)
    ensures r.status in {201, 400, 500}
    ensures r.status == 400 <==> !Complete(body)
    ensures !Complete(body) ==> r == Failure(400, RequiredMessage)
    ensures r.success <==> r.status == 201
    ensures r.status == 201 <==>
      Complete(body) && sink(PayloadOf(body)).Replied? && Given(sink(PayloadOf(body)).reply.success)
    ensures r.status == 201 ==>
      r.message == Some(SubmittedMessage) && r.data == sink(PayloadOf(body)).reply.data
    ensures r.status == 500 ==> r.message.Some? && r.message.value != [] && r.data.None?
    ensures Complete(body) && sink(PayloadOf(body)).Replied? && !Given(sink(PayloadOf(body)).reply.success) ==>
      r == Failure(500, OrElse(sink(PayloadOf(body)).reply.message, NonEmpty, SubmitFallback))
    ensures Complete(body) && sink(PayloadOf(body)).Failed? ==>
      r == Failure(500, OrElse(Some(sink(PayloadOf(body)).errorMessage), NonEmpty, SubmitErrorFallback))
  {
    if !Complete(body) then Failure(400, RequiredMessage)
    else
      match sink(PayloadOf(body))
      case Replied(answer) =>
        if Given(answer.success) then
          Reply(201, true, Some(SubmittedMessage), None, None, None, None, None, answer.data)
        else
          Failure(500, OrElse(answer.message, NonEmpty, SubmitFallback))
      case Failed(message) =>
        Failure(500, OrElse(Some(message), NonEmpty, SubmitErrorFallback))
  }

  /** Two bodies that agree on what is forwarded get the same answer from the same sink. */
  lemma SubmitDependsOnlyOnPayload(b1: LeadBody, b2: LeadBody, sink: LeadPayload -> SinkOutcome)
    requires Complete(b1) && Complete(b2) && PayloadOf(b1) == PayloadOf(b2)
    ensures SubmitLead(b1, sink) == SubmitLead(b2, sink)
  {
  }

  /**
   * `getAllLeads`: 200 with the sink's `count` (0 when missing or falsy) and
   * `data` (`[]` when missing or falsy) when its `success` is truthy; 500 with
   * the sink's message, or a fixed one when it has none, when it is not; and 500
   * with the thrown error's message, possibly empty, when the sink fails.
   */
  function GetAllLeads(outcome: SinkOutcome): (r: Reply<Json>)
    ensures r.success <==> r.status == 200
    ensures r.status == 200 <==> outcome.Replied? && Given(outcome.reply.success)
    ensures r.status == 200 ==>
      && r.message.None?
      && r.count == Some(OrElse(outcome.reply.count, Truthy, JNum(0)))
      && r.data == Some(OrElse(outcome.reply.data, Truthy, JArr([])))
    ensures r.status != 200 ==> r.status == 500 && r.data.None? && r.count.None?
    ensures outcome.Replied? && !Given(outcome.reply.success) ==>
      r.message == Some(OrElse(outcome.reply.message, NonEmpty, FetchFallback))
    ensures outcome.Failed? ==> r.message == Some(outcome.errorMessage)
  {
    match outcome
    case Replied(answer) =>
      if Given(answer.success) then
        Reply(200, true, None, None, Some(OrElse(answer.count, Truthy, JNum(0))), None, None, None,
              Some(OrElse(answer.data, Truthy, JArr([]))))
      else
        Failure(500, OrElse(answer.message, NonEmpty, FetchFallback))
    case Failed(message) =>
      Failure(500, message)
  }

  /** A successful listing always carries a truthy `data` or the empty list, and a count that is truthy or 0. */
  lemma ListedLeadsHaveDefaults(outcome: SinkOutcome)
    requires GetAllLeads(outcome).status == 200
    ensures var r := GetAllLeads(outcome);
      && (Truthy(r.data.value) || r.data.value == JArr([]))
      && (Truthy(r.count.value) || r.count.value == JNum(0))
  {
  }

  /** The listing's 500 for an unsuccessful answer is never empty, unlike the one for a thrown error. */
  lemma FetchRefusalHasMessage(answer: SinkReply)
    requires !Given(answer.success)
    ensures GetAllLeads(Replied(answer)).message.value != []
    ensures answer.message == Some([]) ==> GetAllLeads(Replied(answer)).message == Some(FetchFallback)
  {
  }

  /** The 501 reply of the handlers the sink cannot serve. */
  function NotImplemented(message: string): (r: Reply<Json>)
    ensures r.status == 501 && !r.success && r.message == Some(message) && r.data.None?
  {
    Failure(501, message)
  }

  /** `getLeadById`: 501 for every request. */
  function GetLeadById<Req>(req: Req): (r: Reply<Json>)
    ensures r == NotImplemented(LeadByIdUnsupported)
  {
    NotImplemented(LeadByIdUnsupported)
  }

  /** `updateLeadStatus`: 501 for every request. */
  function UpdateLeadStatus<Req>(req: Req): (r: Reply<Json>)
    ensures r == NotImplemented(StatusUpdateUnsupported)
  {
    NotImplemented(StatusUpdateUnsupported)
  }

  /** `downloadLeadsExcel`: 501 for every request. */
  function DownloadLeadsExcel<Req>(req: Req): (r: Reply<Json>)
    ensures r == NotImplemented(DownloadUnsupported)
  {
    NotImplemented(DownloadUnsupported)
  }

  /** `deleteLead`: 501 for every request. */
  function DeleteLead<Req>(req: Req): (r: Reply<Json>)
    ensures r == NotImplemented(DeleteUnsupported)
  {
    NotImplemented(DeleteUnsupported)
  }

  /** The unsupported handlers answer the same whatever the request. */
  lemma UnsupportedIgnoreRequest<Req>(a: Req, b: Req)
    ensures GetLeadById(a) == GetLeadById(b) && UpdateLeadStatus(a) == UpdateLeadStatus(b)
    ensures DownloadLeadsExcel(a) == DownloadLeadsExcel(b) && DeleteLead(a) == DeleteLead(b)
    ensures GetLeadById(a).status == 501 && DeleteLead(a).status == 501
  {
  }
}
