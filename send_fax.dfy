/**
 * The fax route (app/api/send-fax/route.ts): it checks the Sinch
 * configuration and the request, wraps each senator's message in an HTML page,
 * sends it base64-encoded to the senator's fax number through Sinch's REST
 * API, and answers with the fax ids when every fax was accepted.
 *
 * The environment variables are a `SinchConfig` value, and Sinch is a
 * parameter: `sinch` maps the position of a send and the request sent
 * there to what came back, so that two identical requests, which are two
 * separate POSTs, can get different replies.
 */
module SendFax {
  import opened Wrappers
  import opened Octets
  import Text
  import Utf8
  import Base64

  /** `SINCH_PROJECT_ID`, `SINCH_API_KEY`, `SINCH_API_SECRET` and `SINCH_FROM_NUMBER`. */
  datatype SinchConfig = SinchConfig(
    projectId: Option<string>,
    apiKey: Option<string>,
    apiSecret: Option<string>,
    fromNumber: Option<string>)

  /**
   * One element of `senators`: its `fax` and `body`, each absent or a string.
   * Its `name` is only logged and is left out.
   */
  datatype FaxRecipient = FaxRecipient(fax: Option<string>, body: Option<string>)

  datatype FaxRequest = FaxRequest(senators: JsonArray<FaxRecipient>)

  datatype FaxFile = FaxFile(file: string, fileType: string)

  /** The JSON payload of one send; a `to` of `None` is undefined, which `JSON.stringify` leaves out. */
  datatype Payload = Payload(
    to: Option<string>,
    from: string,
    files: seq<FaxFile>,
    headerPageNumbers: bool,
    imageConversionMethod: string)

  /** One `fetch`: where it goes, its `Authorization` header, and its body. */
  datatype SinchRequest = SinchRequest(url: string, authorization: string, payload: Payload)

  /**
   * An HTTP reply (its status, its text, and what `response.json()` makes of
   * its body), or a `fetch` that threw.
   */
  datatype SinchReply =
    | HttpReply(status: nat, text: string, json: ReplyJson)
    | NetworkError(message: Option<string>)

  /**
   * The body read as JSON: an object, whose `id` may be missing, or text that
   * does not parse, with the message of the parse error.
   */
  datatype ReplyJson =
    | JsonObject(id: Option<string>)
    | Unparsable(message: Option<string>)

  /** A fax id of `None` is `undefined`, which the response's JSON writes as `null`. */
  datatype FaxResponse =
    | FaxesSent(faxIds: seq<Option<string>>)
    | FaxFailure(status: int, error: string)

  const MisconfiguredMessage := "Server misconfiguration for faxing."
  const InvalidMessage := "Invalid data for sending faxes."
  const FallbackMessage := "Failed to send faxes."

  /** Every variable is set to a non-empty value. */
  predicate Configured(config: SinchConfig)
  {
    && config.projectId.Some? && config.projectId.value != ""
    && config.apiKey.Some? && config.apiKey.value != ""
    && config.apiSecret.Some? && config.apiSecret.value != ""
    && config.fromNumber.Some? && config.fromNumber.value != ""
  }

  predicate Accepted(req: FaxRequest)
  {
    req.senators.Items? && |req.senators.items| > 0
  }

  /** The markup of `createFaxHtml` before the message. */
  const FaxHead: string :=
    "\n      <!DOCTYPE html>\n      <html>\n        <head>\n          <meta charset=\"UTF-8\">\n        </head>\n"
    + "        <body style=\"font-family: 'Times New Roman', serif; font-size: 12pt; padding: 40px; line-height: 1.5;\">\n"
    + "          <div style=\"white-space: pre-wrap;\">"

  /** The markup of `createFaxHtml` after the message. */
  const FaxTail: string := "</div>\n        </body>\n      </html>\n    "

  /** `createFaxHtml(messageBody)`: the message, untouched, inside a pre-wrap `div`. */
  function FaxHtml(messageBody: string): (page: string)
    ensures |page| == |FaxHead| + |messageBody| + |FaxTail|
    ensures page[..|FaxHead|] == FaxHead && page[|page| - |FaxTail|..] == FaxTail
    ensures page[|FaxHead|..|FaxHead| + |messageBody|] == messageBody
  {
    FaxHead + messageBody + FaxTail
  }

  /** The message a senator's page carries: a missing `body` is interpolated as `undefined`. */
  function MessageText(body: Option<string>): string
  {
    body.GetOr("undefined")
  }

  /** `Buffer.from(text, 'utf-8').toString('base64')`. */
  function Base64Text(text: string): string
  {
    Base64.Encode(Utf8.Encode(text))
  }

  /** `Basic ` and the base64 of `key:secret`. */
  function Authorization(apiKey: string, apiSecret: string): string
  {
    "Basic " + Base64Text(apiKey + ":" + apiSecret)
  }

  function FaxesUrl(projectId: string): string
  {
    "https://fax.api.sinch.com/v3/projects/" + projectId + "/faxes"
  }

  /**
   * The request sent for one senator. Its single file decodes, base64 and
   * then UTF-8, back to the senator's page.
   */
  function FaxFor(config: SinchConfig, senator: FaxRecipient): (r: SinchRequest)
    requires Configured(config)
    ensures |r.payload.files| == 1
    ensures var page := FaxHtml(MessageText(senator.body));
      && Base64.Decode(r.payload.files[0].file) == Some(Utf8.Encode(page))
      && Utf8.Decode(Utf8.Encode(page)) == Some(page)
  {
    FaxFileDecodes(MessageText(senator.body));
    SinchRequest(
      FaxesUrl(config.projectId.value),
      Authorization(config.apiKey.value, config.apiSecret.value),
      Payload(
        senator.fax,
        config.fromNumber.value,
        [FaxFile(Base64Text(FaxHtml(MessageText(senator.body))), "HTML")],
        true,
        "HALFTONE"))
  }

  /** The requests for all senators, one each, in order. */
  function Requests(config: SinchConfig, senators: seq<FaxRecipient>): (rs: seq<SinchRequest>)
    requires Configured(config)
    ensures |rs| == |senators|
    decreases |senators|
  {
    if |senators| == 0 then [] else [FaxFor(config, senators[0])] + Requests(config, senators[1..])
  }

  /** The request at each position is the one for the senator at that position. */
  lemma {:induction false} RequestsFollowSenators(config: SinchConfig, senators: seq<FaxRecipient>)
    requires Configured(config)
    ensures forall i :: 0 <= i < |senators| ==> Requests(config, senators)[i] == FaxFor(config, senators[i])
    decreases |senators|
  {
    if |senators| > 0 {
      RequestsFollowSenators(config, senators[1..]);
    }
  }

  /**
   * Each send goes to the project's fax endpoint with the configured
   * credentials, to the senator's number from the configured number, with
   * one HTML file holding the senator's message, page numbers in the header
   * and halftone conversion.
   */
  lemma FaxRequestFields(config: SinchConfig, senators: seq<FaxRecipient>, i: nat)
    requires Configured(config) && i < |senators|
    ensures var r := Requests(config, senators)[i];
      && r.url == FaxesUrl(config.projectId.value)
      && r.authorization == Authorization(config.apiKey.value, config.apiSecret.value)
      && r.payload.to == senators[i].fax
      && r.payload.from == config.fromNumber.value
      && |r.payload.files| == 1
      && r.payload.files[0] == FaxFile(Base64Text(FaxHtml(MessageText(senators[i].body))), "HTML")
      && r.payload.headerPageNumbers
      && r.payload.imageConversionMethod == "HALFTONE"
  {
    RequestsFollowSenators(config, senators);
  }

  /** `response.ok`. */
  predicate IsOk(reply: SinchReply)
  {
    reply.HttpReply? && 200 <= reply.status <= 299
  }

  /** The send resolves: the reply is ok and its body parses as a JSON object. */
  predicate Delivered(reply: SinchReply)
  {
    IsOk(reply) && reply.json.JsonObject?
  }

  function SinchErrorText(status: nat, text: string): string
  {
    "Sinch Error: " + Text.NatToDecimal(status) + " - " + text
  }

  /**
   * The message a failed send rejects with, as the handler reports it: the
   * Sinch error for a reply that is not ok, the parse error's message for an
   * ok reply that is not JSON, the `fetch` error's message otherwise, and the
   * fixed text when that message is empty.
   */
  function FailureMessage(reply: SinchReply): (m: string)
    requires !Delivered(reply)
    ensures m != ""
    ensures reply.HttpReply? && !IsOk(reply) ==> m == SinchErrorText(reply.status, reply.text)
    ensures reply.HttpReply? && IsOk(reply) ==> m == OrElse(reply.json.message, FallbackMessage)
    ensures reply.NetworkError? ==> m == OrElse(reply.message, FallbackMessage)
  {
    match reply
    case HttpReply(status, text, json) =>
      if IsOk(reply) then OrElse(json.message, FallbackMessage) else SinchErrorText(status, text)
    case NetworkError(message) => OrElse(message, FallbackMessage)
  }

  /**
   * The uploaded file is the base64 of the UTF-8 of the page, so decoding
   * gives back the page, and the page holds the message verbatim between the
   * fixed markup.
   */
  lemma FaxFileDecodes(messageBody: string)
    ensures Base64.Decode(Base64Text(FaxHtml(messageBody))) == Some(Utf8.Encode(FaxHtml(messageBody)))
    ensures Utf8.Decode(Base64.Decode(Base64Text(FaxHtml(messageBody))).value) == Some(FaxHtml(messageBody))
    ensures var page := FaxHtml(messageBody);
      page[|FaxHead|..|FaxHead| + |messageBody|] == messageBody
  {
    Base64.DecodeEncode(Utf8.Encode(FaxHtml(messageBody)));
    Utf8.DecodeEncode(FaxHtml(messageBody));
  }

  /**
   * The header is `Basic ` and a base64 text that decodes to `key:secret`;
   * splitting that at its first colon gives the key and the secret back
   * whenever the key has no colon.
   */
  lemma AuthorizationDecodes(apiKey: string, apiSecret: string)
    ensures var auth := Authorization(apiKey, apiSecret);
      && auth[..6] == "Basic "
      && Base64.Decode(auth[6..]) == Some(Utf8.Encode(apiKey + ":" + apiSecret))
      && Utf8.Decode(Base64.Decode(auth[6..]).value) == Some(apiKey + ":" + apiSecret)
    ensures ':' !in apiKey ==> Text.SplitAtFirst(apiKey + ":" + apiSecret, ':') == Some((apiKey, apiSecret))
  {
    var auth := Authorization(apiKey, apiSecret);
    assert auth[6..] == Base64Text(apiKey + ":" + apiSecret);
    Base64.DecodeEncode(Utf8.Encode(apiKey + ":" + apiSecret));
    Utf8.DecodeEncode(apiKey + ":" + apiSecret);
    if ':' !in apiKey {
      Text.SplitAtFirstOf(apiKey, ':', apiSecret);
    }
  }

  /** The error text names the status and the reply's text, and different pairs give different texts. */
  lemma {:induction false} SinchErrorTextIsUnambiguous(s1: nat, t1: string, s2: nat, t2: string)
    ensures SinchErrorText(s1, t1) == SinchErrorText(s2, t2) <==> s1 == s2 && t1 == t2
  {
    if SinchErrorText(s1, t1) == SinchErrorText(s2, t2) {
      var prefix := "Sinch Error: ";
      var d1, d2 := Text.NatToDecimal(s1), Text.NatToDecimal(s2);
      var r1, r2 := d1 + " - " + t1, d2 + " - " + t2;
      assert SinchErrorText(s1, t1) == prefix + r1;
      assert SinchErrorText(s2, t2) == prefix + r2;
      assert r1 == SinchErrorText(s1, t1)[|prefix|..];
      assert r1 == r2;
      assert ' ' !in d1 && ' ' !in d2;
      assert r1 == d1 + [' '] + ("- " + t1);
      assert r2 == d2 + [' '] + ("- " + t2);
      Text.SplitAtFirstOf(d1, ' ', "- " + t1);
      Text.SplitAtFirstOf(d2, ' ', "- " + t2);
      assert d1 == d2;
      Text.DecimalInjective(s1, s2);
      assert "- " + t1 == "- " + t2;
      assert t1 == ("- " + t1)[2..];
    }
  }

  /**
   * Sends every request and waits for all of them: `Promise.all` over the
   * sends, then `results.map((r) => r.id)`. The answer lists the fax ids in
   * request order exactly when every send is delivered; otherwise it carries the
   * message of a failed send. `Promise.all` rejects with whichever failure
   * comes first in time, so which failed send that is, is not said.
   */
  method SendAll(requests: seq<SinchRequest>, sinch: (nat, SinchRequest) -> SinchReply) returns (response: FaxResponse)
    ensures response.FaxesSent? <==> forall i :: 0 <= i < |requests| ==> Delivered(sinch(i, requests[i]))
    ensures response.FaxesSent? ==>
      && |response.faxIds| == |requests|
      && forall i :: 0 <= i < |requests| ==> response.faxIds[i] == sinch(i, requests[i]).json.id
    ensures response.FaxFailure? ==>
      && response.status == 500
      && exists i :: 0 <= i < |requests| && !Delivered(sinch(i, requests[i])) && response.error == FailureMessage(sinch(i, requests[i]))
  {
    var faxIds: seq<Option<string>> := [];
    var failure: Option<SinchReply> := None;
    var i := 0;
    while i < |requests|
      invariant 0 <= i <= |requests|
      invariant failure.None? <==> forall k :: 0 <= k < i ==> Delivered(sinch(k, requests[k]))
      invariant failure.None? ==> |faxIds| == i && forall k :: 0 <= k < i ==> faxIds[k] == sinch(k, requests[k]).json.id
      invariant failure.Some? ==> !Delivered(failure.value) && exists k :: 0 <= k < i && sinch(k, requests[k]) == failure.value
    {
      var reply := sinch(i, requests[i]);
      if failure.None? {
        if Delivered(reply) {
          faxIds := faxIds + [reply.json.id];
        } else {
          failure := Some(reply);
        }
      }
      i := i + 1;
    }
    if failure.None? {
      response := FaxesSent(faxIds);
    } else {
      response := FaxFailure(500, FailureMessage(failure.value));
    }
  }

  /**
   * `POST`. Without the configuration nothing else is looked at; without a
   * non-empty `senators` array nothing is sent. Otherwise one request per
   * senator is sent, and the answer is that of `SendAll`.
   */
  method Post(config: SinchConfig, req: FaxRequest, sinch: (nat, SinchRequest) -> SinchReply)
    returns (response: FaxResponse, sent: seq<SinchRequest>)
    ensures !Configured(config) ==> response == FaxFailure(500, MisconfiguredMessage) && sent == []
    ensures Configured(config) && !Accepted(req) ==> response == FaxFailure(400, InvalidMessage) && sent == []
    ensures Configured(config) && Accepted(req) ==> sent == Requests(config, req.senators.items)
    ensures response.FaxesSent? <==>
      Configured(config) && Accepted(req) && forall i :: 0 <= i < |sent| ==> Delivered(sinch(i, sent[i]))
    ensures response.FaxesSent? ==>
      && |response.faxIds| == |sent|
      && forall i :: 0 <= i < |sent| ==> response.faxIds[i] == sinch(i, sent[i]).json.id
    ensures Configured(config) && Accepted(req) && response.FaxFailure? ==>
      && response.status == 500
      && exists i :: 0 <= i < |sent| && !Delivered(sinch(i, sent[i])) && response.error == FailureMessage(sinch(i, sent[i]))
  {
    if !Configured(config) {
      return FaxFailure(500, MisconfiguredMessage), [];
    }
    if !Accepted(req) {
      return FaxFailure(400, InvalidMessage), [];
    }
    sent := Requests(config, req.senators.items);
    response := SendAll(sent, sinch);
  }
}
