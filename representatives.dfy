/**
 * The recipient-intake route (app/api/representatives/route.ts): it checks the
 * ZIP code and the sender's fields, resolves the ZIP code to a state with the
 * Zippopotam service, finds the state's senators in `SENATOR_DATA`, and
 * answers with one record per senator carrying the same composed message.
 *
 * The ZIP-code service is a parameter: `lookup` maps the URL that is fetched
 * to what came back, and `Post` returns, beside the response, the URLs it
 * fetched, so that "no lookup happens" can be stated. The senator table and
 * the message's fixed text are a parameter too (`RouteData`): `Post` is stated
 * for any of them, and `Handle` applies it to `Deployed`, which holds
 * `SenatorTable.SenatorData` and `LetterText`.
 */
module Representatives {
  import opened Wrappers
  import Text
  import SenatorTable

  /** The fields of the JSON request body; each is absent or a string. */
  datatype RepsRequest = RepsRequest(
    zipCode: Option<string>,
    firstName: Option<string>,
    lastName: Option<string>,
    userEmail: Option<string>,
    streetAddress: Option<string>)

  /** What fetching the ZIP-code URL gave. */
  datatype ZipLookup =
    | Place(stateAbbreviation: Option<string>)  // an ok reply; the first place's abbreviation, if it has one
    | NotOk                                    // a reply whose status is outside 200-299
    | Failed                                   // the fetch threw, or the reply has no first place

  /** One element of `reps`. */
  datatype SenatorResult = SenatorResult(
    name: string, contactUrl: string, fax: string, phone: string, body: string, userState: string)

  datatype RepsResponse =
    | Reps(reps: seq<SenatorResult>)
    | Failure(status: int, error: string, source: Option<string>)

  /** The response, and the URLs fetched on the way to it. */
  datatype Handled = Handled(response: RepsResponse, fetched: seq<string>)

  const ZipCodeMessage := "Valid 5-digit Zip Code required."
  const FieldsMessage := "All fields (Name, Email, Street Address) are required."
  const ZipNotFoundMessage := "Zip Code not found."
  const ServerErrorMessage := "An error occurred while processing your request."
  const NoSenatorsMessage := "Could not find senator data for state: "

  /** `zipCode && zipCode.length === 5`: only the length is checked, not that the characters are digits. */
  predicate ZipCodeAccepted(zipCode: Option<string>)
  {
    zipCode.Some? && |zipCode.value| == 5
  }

  /** `field?.trim()` is truthy: present and not all white space. */
  predicate HasText(field: Option<string>)
  {
    field.Some? && !Text.IsBlank(field.value)
  }

  /** Both names and the street address have text, and the e-mail address contains `@`. */
  predicate FieldsAccepted(req: RepsRequest)
  {
    && HasText(req.firstName)
    && HasText(req.lastName)
    && HasText(req.streetAddress)
    && req.userEmail.Some? && '@' in req.userEmail.value
  }

  function ZipUrl(zipCode: string): string
  {
    "https://api.zippopotam.us/us/" + zipCode
  }

  /**
   * The fixed data `Post` works from: the senator table, and the text of the
   * message up to the sender's signature.
   */
  datatype RouteData = RouteData(table: string -> Option<SenatorTable.Delegation>, letterText: string)

  /** The fixed text of the message, up to the sender's signature. */
  const LetterText: string :=
    "Dear Senator,\n\n"
    + "I am writing to you as a concerned constituent to urge immediate action to support our Kurdish allies in Northeast Syria (Rojava).\n\n"
    + "Kurdish forces were America’s most vital boots-on-the-ground allies in defeating the physical ISIS caliphate, sacrificing thousands of lives in a fight that protected us all. Today, these same communities are dangerously abandoned—facing Turkish military aggression, threats from the Syrian regime, and severe geopolitical instability.\n\n"
    + "The humanitarian situation is rapidly deteriorating. Large areas of Northeast Syria are without electricity, clean water, or heating, leaving civilians—especially children, the elderly, and the sick—exposed to extreme hardship. Tragically, reports indicate that a fifth child has recently died due to cold and lack of basic services, underscoring the urgency of this crisis.\n\n"
    + "Beyond the humanitarian disaster, there are serious implications for U.S. national security. If this region destabilizes further, there is a dire risk that thousands of ISIS prisoners currently held in Kurdish-run detention camps could escape, potentially leading to a resurgence of global terrorism.\n\n"
    + "We must not abandon those who fought alongside us at great cost. I respectfully urge you to take immediate action to support humanitarian aid, protect civilian infrastructure, and ensure the continued stability and security of Northeast Syria.\n\n"
    + "Sincerely,\n\n"

  /** The route's own data: `SENATOR_DATA` and the message's fixed text. */
  const Deployed := RouteData(SenatorTable.SenatorData, LetterText)

  /** The message: the fixed text signed with the names exactly as they were sent. */
  function MessageBody(letterText: string, firstName: string, lastName: string): string
  {
    letterText + firstName + " " + lastName
  }

  /** `senators.map(...)`: one record per senator, in order, each with the same body and state. */
  function Results(senators: seq<SenatorTable.Senator>, body: string, state: string): (rs: seq<SenatorResult>)
    ensures |rs| == |senators|
    ensures forall i :: 0 <= i < |rs| ==>
      && rs[i].name == senators[i].name
      && rs[i].contactUrl == senators[i].contactUrl
      && rs[i].fax == senators[i].Fax()
      && rs[i].phone == senators[i].phone
      && rs[i].body == body
      && rs[i].userState == state
    decreases |senators|
  {
    if |senators| == 0 then []
    else
      var s := senators[0];
      [SenatorResult(s.name, s.contactUrl, s.Fax(), s.phone, body, state)] + Results(senators[1..], body, state)
  }

  /** The state a successful ZIP-code reply names; JavaScript renders a missing one as `undefined`. */
  function StateKey(stateAbbreviation: Option<string>): string
  {
    stateAbbreviation.GetOr("undefined")
  }

  /** The response once the ZIP-code service has answered. */
  function Answer(req: RepsRequest, reply: ZipLookup, data: RouteData): RepsResponse
    requires FieldsAccepted(req)
  {
    match reply
    case NotOk => Failure(404, ZipNotFoundMessage, Some("zippopotam"))
    case Failed => Failure(500, ServerErrorMessage, None)
    case Place(abbreviation) =>
      var state := StateKey(abbreviation);
      match data.table(state)
      case None => Failure(404, NoSenatorsMessage + state, None)
      case Some(delegation) =>
        Reps(Results(delegation.Members(), MessageBody(data.letterText, req.firstName.value, req.lastName.value), state))
  }

  /**
   * `POST`. `body` is `None` when `request.json()` fails or gives `null`, which
   * makes the handler throw and answer 500. The ZIP-code service is asked at
   * most once, and records come back only after it was asked for the
   * request's ZIP code.
   */
  function Post(body: Option<RepsRequest>, lookup: string -> ZipLookup, data: RouteData): (h: Handled)
    ensures |h.fetched| <= 1
    ensures h.response.Reps? ==> body.Some? && ZipCodeAccepted(body.value.zipCode) && h.fetched == [ZipUrl(body.value.zipCode.value)]
  {
    if body.None? then Handled(Failure(500, ServerErrorMessage, None), [])
    else
      var req := body.value;
      if !ZipCodeAccepted(req.zipCode) then Handled(Failure(400, ZipCodeMessage, None), [])
      else if !FieldsAccepted(req) then Handled(Failure(400, FieldsMessage, None), [])
      else
        var url := ZipUrl(req.zipCode.value);
        Handled(Answer(req, lookup(url), data), [url])
  }

  /**
   * The route as deployed: `Post` over the `SENATOR_DATA` table and the
   * route's own message.
   */
  function Handle(body: Option<RepsRequest>, lookup: string -> ZipLookup): Handled
  {
    Post(body, lookup, Deployed)
  }


  /**
   * The ZIP code is checked first, then the other fields, and the ZIP-code
   * service is asked only when both checks pass, with the ZIP code at the end
   * of the URL.
   */
  lemma ChecksPrecedeLookup(body: Option<RepsRequest>, lookup: string -> ZipLookup, data: RouteData)
    ensures var h := Post(body, lookup, data);
      h.fetched == [] <==> body.None? || !ZipCodeAccepted(body.value.zipCode) || !FieldsAccepted(body.value)
    ensures body.Some? && !ZipCodeAccepted(body.value.zipCode) ==>
      Post(body, lookup, data).response == Failure(400, ZipCodeMessage, None)
    ensures body.Some? && ZipCodeAccepted(body.value.zipCode) && !FieldsAccepted(body.value) ==>
      Post(body, lookup, data).response == Failure(400, FieldsMessage, None)
    ensures Post(body, lookup, data).fetched != [] ==>
      Post(body, lookup, data).fetched == [ZipUrl(body.value.zipCode.value)]
  {
  }

  /**
   * A ZIP code the service does not know gives 404 naming the service; a
   * failed lookup gives 500; a resolved state missing from the table gives
   * 404 naming that state.
   */
  lemma LookupFailures(req: RepsRequest, lookup: string -> ZipLookup, data: RouteData)
    requires ZipCodeAccepted(req.zipCode) && FieldsAccepted(req)
    ensures lookup(ZipUrl(req.zipCode.value)).NotOk? ==>
      Post(Some(req), lookup, data).response == Failure(404, ZipNotFoundMessage, Some("zippopotam"))
    ensures lookup(ZipUrl(req.zipCode.value)).Failed? ==>
      Post(Some(req), lookup, data).response == Failure(500, ServerErrorMessage, None)
    ensures var reply := lookup(ZipUrl(req.zipCode.value));
      reply.Place? && data.table(StateKey(reply.stateAbbreviation)).None? ==>
      Post(Some(req), lookup, data).response == Failure(404, NoSenatorsMessage + StateKey(reply.stateAbbreviation), None)
  {
  }

  /**
   * The request succeeds exactly when the checks pass, the service answers
   * with a place and the table has its state. Then `reps` copies that
   * state's senators in table order, each with the same body and the
   * resolved state.
   */
  lemma SuccessfulSearch(body: Option<RepsRequest>, lookup: string -> ZipLookup, data: RouteData)
    ensures Post(body, lookup, data).response.Reps? <==>
      && body.Some? && ZipCodeAccepted(body.value.zipCode) && FieldsAccepted(body.value)
      && var reply := lookup(ZipUrl(body.value.zipCode.value));
         reply.Place? && data.table(StateKey(reply.stateAbbreviation)).Some?
    ensures Post(body, lookup, data).response.Reps? ==>
      var req := body.value;
      var state := StateKey(lookup(ZipUrl(req.zipCode.value)).stateAbbreviation);
      var senators := data.table(state).value.Members();
      var reps := Post(body, lookup, data).response.reps;
      && |reps| == |senators| == 2
      && forall i :: 0 <= i < |reps| ==>
        && reps[i].name == senators[i].name
        && reps[i].contactUrl == senators[i].contactUrl
        && reps[i].fax == senators[i].Fax()
        && SenatorTable.IsUsFaxNumber(reps[i].fax)
        && reps[i].phone == senators[i].phone
        && reps[i].body == MessageBody(data.letterText, req.firstName.value, req.lastName.value)
        && reps[i].userState == state
  {
  }

  /**
   * The message is the fixed text followed by the signature, the names joined
   * by one space; different signatures give different messages.
   */
  lemma MessageEndsWithSignature(letterText: string, firstName: string, lastName: string)
    ensures var m := MessageBody(letterText, firstName, lastName);
      && m[..|letterText|] == letterText
      && m[|letterText|..] == firstName + " " + lastName
  {
  }

  lemma {:induction false} SignatureDeterminesMessage(letterText: string, f1: string, l1: string, f2: string, l2: string)
    ensures MessageBody(letterText, f1, l1) == MessageBody(letterText, f2, l2) <==> f1 + " " + l1 == f2 + " " + l2
  {
    MessageEndsWithSignature(letterText, f1, l1);
    MessageEndsWithSignature(letterText, f2, l2);
    assert MessageBody(letterText, f1, l1) == letterText + (f1 + " " + l1);
    assert MessageBody(letterText, f2, l2) == letterText + (f2 + " " + l2);
  }
}
