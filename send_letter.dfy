/**
 * The letter route (app/api/send-letter/route.ts): one printed letter per
 * senator, addressed to the Senate and sent from the user's address, each
 * submitted to Lob; the request succeeds only if every submission does.
 *
 * Lob is a parameter: `lob` maps the position of a submission and the letter
 * submitted there to what Lob answered, so that two identical letters, which
 * are two separate submissions, can get different answers. The date printed
 * on the letter, which the source reads from the clock, is a parameter too.
 */
module SendLetter {
  import opened Wrappers
  import Text

  /** The sender, as the request carries it; every field is absent or a string. */
  datatype User = User(
    firstName: Option<string>,
    lastName: Option<string>,
    streetAddress: Option<string>,
    city: Option<string>,
    state: Option<string>,
    zipCode: Option<string>)

  /** One element of `senators`: a record the representatives route produced. */
  datatype Recipient = Recipient(name: string, body: string)

  datatype LetterRequest = LetterRequest(user: Option<User>, senators: JsonArray<Recipient>)

  /** A postal address; a field left `None` is one the source fills with `undefined`. */
  datatype Address = Address(
    name: string,
    addressLine1: Option<string>,
    addressCity: Option<string>,
    addressState: Option<string>,
    addressZip: Option<string>)

  /**
   * The values the letter's HTML template receives: the date, the name after
   * "The Honorable", the name after "Dear Senator", and the body.
   */
  datatype LetterFile = LetterFile(date: string, honorable: string, salutation: string, bodyHtml: string)

  /** The argument of `lob.letters.create`. */
  datatype LobLetter = LobLetter(
    description: string,
    useType: string,
    to: Address,
    from: Address,
    file: LetterFile,
    color: bool,
    addressPlacement: string,
    doubleSided: bool)

  /** What Lob answered: a created letter, or an error with its message and the message nested in its response. */
  datatype LobOutcome =
    | Created(id: string)
    | LobError(message: Option<string>, responseMessage: Option<string>)

  datatype LetterResponse =
    | Sent
    | LetterFailure(status: int, error: string)

  const InvalidMessage := "Invalid data for sending letters."
  const FallbackMessage := "Failed to send letters via Lob."

  /** `!user || !senators || !Array.isArray(senators) || senators.length === 0` is false. */
  predicate Accepted(req: LetterRequest)
  {
    req.user.Some? && req.senators.Items? && |req.senators.items| > 0
  }

  /** A value inside a template string: JavaScript writes an absent one as `undefined`. */
  function Interpolate(field: Option<string>): string
  {
    field.GetOr("undefined")
  }

  function SenderName(user: User): string
  {
    Interpolate(user.firstName) + " " + Interpolate(user.lastName)
  }

  /** `name.split(' ').pop()`. */
  function SalutationName(name: string): string
  {
    Text.Last(Text.Split(name, ' '))
  }

  /** `body.replace(/\n/g, '<br>')`. */
  function BodyHtml(body: string): string
  {
    Text.ReplaceAll(body, '\n', "<br>")
  }

  /** Every senator is written to at the Senate in Washington, DC 20510. */
  function SenateAddress(name: string): Address
  {
    Address("Senator " + name, Some("United States Senate"), Some("Washington"), Some("DC"), Some("20510"))
  }

  function ReturnAddress(user: User): Address
  {
    Address(SenderName(user), user.streetAddress, user.city, user.state, user.zipCode)
  }

  /**
   * The letter submitted for one senator: it greets the senator by the last
   * space-separated word of the name, and its body is the senator's message
   * with each line feed turned into `<br>`, so none is left.
   */
  function LetterFor(user: User, senator: Recipient, date: string): (l: LobLetter)
    ensures l.file.honorable == senator.name && l.file.date == date
    ensures l.description == "Advocacy Letter to Sen. " + senator.name + " from " + SenderName(user)
    ensures var w := l.file.salutation;
      && ' ' !in w && |w| <= |senator.name|
      && w == senator.name[|senator.name| - |w|..]
      && (|w| == |senator.name| || senator.name[|senator.name| - |w| - 1] == ' ')
    ensures l.file.bodyHtml == Text.Join(Text.Split(senator.body, '\n'), "<br>")
    ensures '\n' !in l.file.bodyHtml
  {
    SalutationIsLastWord(senator.name);
    BodyHasNoNewline(senator.body);
    LobLetter(
      "Advocacy Letter to Sen. " + senator.name + " from " + SenderName(user),
      "operational",
      SenateAddress(senator.name),
      ReturnAddress(user),
      LetterFile(date, senator.name, SalutationName(senator.name), BodyHtml(senator.body)),
      false,
      "top_first_page",
      true)
  }

  /** `error.message || error._response?.body?.error?.message || 'Failed to send letters via Lob.'`. */
  function ErrorMessage(outcome: LobOutcome): (m: string)
    requires outcome.LobError?
    ensures m != ""
    ensures m == FallbackMessage || Some(m) == outcome.message || Some(m) == outcome.responseMessage
  {
    OrElse(outcome.message, OrElse(outcome.responseMessage, FallbackMessage))
  }

  /** The error's own message wins when it has one; Lob's nested message comes next, then the fixed text. */
  lemma ErrorMessagePrecedence(outcome: LobOutcome)
    requires outcome.LobError?
    ensures outcome.message.Some? && outcome.message.value != "" ==> ErrorMessage(outcome) == outcome.message.value
    ensures (outcome.message.None? || outcome.message.value == "") ==>
      ErrorMessage(outcome) == OrElse(outcome.responseMessage, FallbackMessage)
  {
  }

  /**
   * The salutation is the last space-separated word of the name: a suffix of
   * it without spaces, which is the whole name or follows a space.
   */
  lemma SalutationIsLastWord(name: string)
    ensures var w := SalutationName(name);
      && |w| <= |name|
      && w == name[|name| - |w|..]
      && ' ' !in w
      && (|w| == |name| || name[|name| - |w| - 1] == ' ')
  {
    Text.LastOfSplit(name, ' ');
  }

  /** When the last space of the name is at `k`, the salutation is everything after it. */
  lemma SalutationAfterLastSpace(name: string, k: nat)
    requires k < |name| && name[k] == ' ' && ' ' !in name[k + 1..]
    ensures SalutationName(name) == name[k + 1..]
  {
    SalutationIsLastWord(name);
  }

  /** A three-word name is greeted by its last word. */
  lemma SalutationOfLujan()
    ensures SalutationName("Ben Ray Luján") == "Luján"
  {
    var name := "Ben Ray Luján";
    assert name[8..] == "Luján";
    SalutationAfterLastSpace(name, 7);
  }

  /** The body in the letter has no line feed left, and is the original lines joined by `<br>`. */
  lemma BodyHasNoNewline(body: string)
    ensures '\n' !in BodyHtml(body)
    ensures BodyHtml(body) == Text.Join(Text.Split(body, '\n'), "<br>")
    ensures '\n' !in body ==> BodyHtml(body) == body
  {
    Text.ReplaceAllIsSplitJoin(body, '\n', "<br>");
  }

  /**
   * The recipient's address depends on the senator's name alone, the return
   * address on the user alone, and every letter is black and white, double
   * sided, operational mail with the address on top of the first page.
   */
  lemma LetterAddressesAndOptions(u1: User, u2: User, s1: Recipient, s2: Recipient, d1: string, d2: string)
    ensures s1.name == s2.name ==> LetterFor(u1, s1, d1).to == LetterFor(u2, s2, d2).to
    ensures u1 == u2 ==> LetterFor(u1, s1, d1).from == LetterFor(u2, s2, d2).from
    ensures var l := LetterFor(u1, s1, d1);
      && l.to == Address("Senator " + s1.name, Some("United States Senate"), Some("Washington"), Some("DC"), Some("20510"))
      && l.from == Address(SenderName(u1), u1.streetAddress, u1.city, u1.state, u1.zipCode)
      && !l.color && l.doubleSided && l.useType == "operational" && l.addressPlacement == "top_first_page"
  {
  }

  /**
   * Submits every letter and waits for all of them (`Promise.all` over the
   * submissions). The answer is `Sent` exactly when Lob created every letter,
   * each answered at its own position; otherwise it carries the message of a
   * failed submission. `Promise.all` rejects with whichever failure comes
   * first in time, so which failed submission is not said.
   */
  method SubmitAll(letters: seq<LobLetter>, lob: (nat, LobLetter) -> LobOutcome) returns (response: LetterResponse)
    ensures response == Sent <==> forall i :: 0 <= i < |letters| ==> lob(i, letters[i]).Created?
    ensures response != Sent ==>
      && response.LetterFailure? && response.status == 500
      && exists i :: 0 <= i < |letters| && lob(i, letters[i]).LobError? && response.error == ErrorMessage(lob(i, letters[i]))
  {
    var failure: Option<LobOutcome> := None;
    var i := 0;
    while i < |letters|
      invariant 0 <= i <= |letters|
      invariant failure.None? <==> forall k :: 0 <= k < i ==> lob(k, letters[k]).Created?
      invariant failure.Some? ==> failure.value.LobError? && exists k :: 0 <= k < i && lob(k, letters[k]) == failure.value
    {
      var outcome := lob(i, letters[i]);
      if outcome.LobError? && failure.None? {
        failure := Some(outcome);
      }
      i := i + 1;
    }
    if failure.None? {
      response := Sent;
    } else {
      response := LetterFailure(500, ErrorMessage(failure.value));
    }
  }

  /**
   * `POST`. Every senator gets a letter, `senators.map` building them in
   * order; the response is that of `SubmitAll`.
   */
  method Post(req: LetterRequest, date: string, lob: (nat, LobLetter) -> LobOutcome)
    returns (response: LetterResponse, sent: seq<LobLetter>)
    ensures !Accepted(req) ==> response == LetterFailure(400, InvalidMessage) && sent == []
    ensures Accepted(req) ==>
      && |sent| == |req.senators.items|
      && forall i :: 0 <= i < |sent| ==> sent[i] == LetterFor(req.user.value, req.senators.items[i], date)
    ensures response == Sent <==> Accepted(req) && forall i :: 0 <= i < |sent| ==> lob(i, sent[i]).Created?
    ensures Accepted(req) && response != Sent ==>
      && response.LetterFailure? && response.status == 500
      && exists i :: 0 <= i < |sent| && lob(i, sent[i]).LobError? && response.error == ErrorMessage(lob(i, sent[i]))
  {
    if !Accepted(req) {
      return LetterFailure(400, InvalidMessage), [];
    }
    var user := req.user.value;
    var senators := req.senators.items;
    sent := seq(|senators|, k requires 0 <= k < |senators| => LetterFor(user, senators[k], date));
    response := SubmitAll(sent, lob);
  }
}
