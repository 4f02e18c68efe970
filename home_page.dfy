/**
 * The client page (app/page.tsx): a form whose fields are kept in component
 * state, a search that posts the form to the representatives route and keeps
 * either the records it answers with or an error message, and the `mailto:`
 * link (RFC 6068) offered for each record.
 *
 * `Home` holds the page's state (`formData`, `loading`, `error`, `results`);
 * its methods are the state updates of the source's handlers. The `fetch` of
 * the route and the parsing of its JSON reply are a parameter of
 * `HandleSearch`, which maps the request body that is posted to what came back.
 */
module HomePage {
  import opened Wrappers
  import Text
  import UriComponent
  import Representatives

  /** The `name`s of the form's four inputs, which are also the keys of `formData`. */
  const InputNames: set<string> := {"firstName", "lastName", "userEmail", "zipCode"}

  const ZipMissingMessage := "That Zip Code does not appear to exist in US records. Please check and try again."
  const GenericMessage := "Something went wrong. Please try again."

  /** The fields the page reads from one element of `data.reps`; each is absent or a string. */
  datatype Rep = Rep(email: Option<string>, subject: Option<string>, body: Option<string>)

  /** The parsed JSON reply: its HTTP status and the fields the page reads. */
  datatype Reply = Reply(status: int, source: Option<string>, error: Option<string>, reps: seq<Rep>)

  /** What the search's `fetch` and `response.json()` gave: a reply, or an error thrown with its message. */
  datatype Fetched =
    | Received(reply: Reply)
    | Threw(message: string)

  /** What a search leaves behind: the records found, or the message shown. */
  datatype SearchOutcome =
    | Found(reps: seq<Rep>)
    | Failed(message: string)

  /** `response.ok`. */
  predicate IsOk(status: int)
  {
    200 <= status <= 299
  }

  /** The message thrown for a reply that is not ok. */
  function ReplyError(reply: Reply): (m: string)
    ensures m != ""
    ensures m == ZipMissingMessage || m == GenericMessage || Some(m) == reply.error
  {
    if reply.status == 404 && reply.source == Some("zippopotam") then ZipMissingMessage
    else OrElse(reply.error, GenericMessage)
  }

  /** The 404 of an unknown ZIP code shows the fixed text whatever the server said; otherwise the server's text, or the fixed fallback. */
  lemma ReplyErrorPrecedence(reply: Reply)
    ensures reply.status == 404 && reply.source == Some("zippopotam") ==> ReplyError(reply) == ZipMissingMessage
    ensures !(reply.status == 404 && reply.source == Some("zippopotam")) && reply.error.Some? && reply.error.value != "" ==>
      ReplyError(reply) == reply.error.value
    ensures !(reply.status == 404 && reply.source == Some("zippopotam")) && (reply.error.None? || reply.error == Some("")) ==>
      ReplyError(reply) == GenericMessage
  {
  }

  /** The `try`/`catch` of `handleSearch`: the reply's records when it is ok, and otherwise the message of what was thrown. */
  function Outcome(fetched: Fetched): (o: SearchOutcome)
    ensures o.Found? <==> fetched.Received? && IsOk(fetched.reply.status)
    ensures o.Found? ==> o.reps == fetched.reply.reps
    ensures fetched.Threw? ==> o == Failed(fetched.message)
    ensures fetched.Received? && !IsOk(fetched.reply.status) ==> o == Failed(ReplyError(fetched.reply))
  {
    match fetched
    case Threw(message) => Failed(message)
    case Received(reply) => if IsOk(reply.status) then Found(reply.reps) else Failed(ReplyError(reply))
  }

  /** `formData[key]`, absent when the object has no such key. */
  function Field(form: map<string, string>, key: string): Option<string>
  {
    if key in form then Some(form[key]) else None
  }

  /** The body `JSON.stringify(formData)` posts, as the representatives route reads it. */
  function RequestFromForm(form: map<string, string>): (req: Representatives.RepsRequest)
    ensures form.Keys == InputNames ==>
      && req.streetAddress.None?
      && req.zipCode == Some(form["zipCode"]) && req.firstName == Some(form["firstName"])
      && req.lastName == Some(form["lastName"]) && req.userEmail == Some(form["userEmail"])
  {
    Representatives.RepsRequest(
      Field(form, "zipCode"), Field(form, "firstName"), Field(form, "lastName"),
      Field(form, "userEmail"), Field(form, "streetAddress"))
  }

  /** The reply the page receives for a response of the representatives route. */
  function ReplyOf(response: Representatives.RepsResponse): Reply
  {
    match response
    case Reps(rs) => Reply(200, None, None, seq(|rs|, i requires 0 <= i < |rs| => RepOf(rs[i])))
    case Failure(status, error, source) => Reply(status, source, Some(error), [])
  }

  /** A record of the route seen through the fields the page reads: it has a body, but no `email` and no `subject`. */
  function RepOf(r: Representatives.SenatorResult): Rep
  {
    Rep(None, None, Some(r.body))
  }

  /**
   * The form has no street address, and the route refuses a request without
   * one: a search from the page never reaches the ZIP-code service and always
   * ends with a 400 message, the ZIP-code one or the missing-fields one.
   */
  lemma SearchFromFormIsRefused(form: map<string, string>, lookup: string -> Representatives.ZipLookup,
                                data: Representatives.RouteData)
    requires form.Keys == InputNames
    ensures var h := Representatives.Post(Some(RequestFromForm(form)), lookup, data);
      && h.fetched == []
      && h.response.Failure? && h.response.status == 400
      && Outcome(Received(ReplyOf(h.response))) ==
         Failed(if |form["zipCode"]| == 5 then Representatives.FieldsMessage else Representatives.ZipCodeMessage)
  {
    Representatives.ChecksPrecedeLookup(Some(RequestFromForm(form)), lookup, data);
  }

  /**
   * How the page shows each answer of the representatives route: the records
   * it found, the fixed text for an unknown ZIP code, and otherwise the
   * route's own message.
   */
  lemma RouteAnswersOnPage(response: Representatives.RepsResponse)
    ensures response.Reps? ==>
      && Outcome(Received(ReplyOf(response))).Found?
      && |Outcome(Received(ReplyOf(response))).reps| == |response.reps|
      && forall i :: 0 <= i < |response.reps| ==>
           Outcome(Received(ReplyOf(response))).reps[i] == Rep(None, None, Some(response.reps[i].body))
    ensures response.Failure? && response.status == 404 && response.source == Some("zippopotam") ==>
      Outcome(Received(ReplyOf(response))) == Failed(ZipMissingMessage)
    ensures response.Failure? && !IsOk(response.status) && response.source.None? && response.error != "" ==>
      Outcome(Received(ReplyOf(response))) == Failed(response.error)
  {
  }

  /**
   * `createMailtoLink(repEmail, subject, body)`. The encoded subject and body
   * hold none of the link's delimiters, so the link reads back as the
   * address, subject and body it was made from, as long as the address has
   * no `?`.
   */
  function CreateMailtoLink(repEmail: string, subject: string, body: string): (link: string)
    ensures '?' !in repEmail ==> ParseMailto(link) == Some((repEmail, subject, body))
  {
    var s := UriComponent.Encode(subject);
    var b := UriComponent.Encode(body);
    assert '?' !in repEmail ==> ParseMailto("mailto:" + repEmail + "?subject=" + s + "&body=" + b) == Some((repEmail, subject, body)) by {
      if '?' !in repEmail {
        EncodedHasNoDelimiter(subject);
        ParseMailtoOf(repEmail, s, b);
        UriComponent.DecodeEncode(subject);
        UriComponent.DecodeEncode(body);
      }
    }
    "mailto:" + repEmail + "?subject=" + s + "&body=" + b
  }

  /** The link offered for a record: a missing field is interpolated and encoded as `undefined`. */
  function MailtoFor(rep: Rep): string
  {
    CreateMailtoLink(rep.email.GetOr("undefined"), rep.subject.GetOr("undefined"), rep.body.GetOr("undefined"))
  }

  /** No character that separates the parts of a `mailto:` link, nor a space or a line feed. */
  predicate IsDelimiter(c: char)
  {
    c == '&' || c == '=' || c == '?' || c == '#' || c == ' ' || c == '\n'
  }

  predicate HasNoDelimiter(t: string)
  {
    forall i :: 0 <= i < |t| ==> !IsDelimiter(t[i])
  }

  /**
   * Reading a `mailto:` link of this shape: the address up to the first `?`,
   * then the query, whose values are percent-decoded.
   */
  function ParseMailto(link: string): Option<(string, string, string)>
  {
    if |link| < 7 || link[..7] != "mailto:" then None
    else match Text.SplitAtFirst(link[7..], '?')
      case None => None
      case Some((to, query)) =>
        match ParseQuery(query)
        case None => None
        case Some((s, b)) => Some((to, s, b))
  }

  /** `subject=` up to the first `&`, then `body=` and the rest, both values percent-decoded. */
  function ParseQuery(query: string): Option<(string, string)>
  {
    if |query| < 8 || query[..8] != "subject=" then None
    else match Text.SplitAtFirst(query[8..], '&')
      case None => None
      case Some((subject, rest)) =>
        if |rest| < 5 || rest[..5] != "body=" then None
        else match (UriComponent.Decode(subject), UriComponent.Decode(rest[5..]))
          case (Some(s), Some(b)) => Some((s, b))
          case _ => None
  }

  /** The query splits at its `&` as long as the subject has none. */
  lemma ParseQueryOf(s: string, b: string)
    requires '&' !in s
    ensures ParseQuery("subject=" + s + "&body=" + b) ==
      match (UriComponent.Decode(s), UriComponent.Decode(b))
      case (Some(x), Some(y)) => Some((x, y))
      case _ => None
  {
    var query := "subject=" + s + "&body=" + b;
    assert query[..8] == "subject=";
    assert query[8..] == s + ['&'] + ("body=" + b);
    Text.SplitAtFirstOf(s, '&', "body=" + b);
    assert ("body=" + b)[5..] == b;
  }

  /** A link of this shape splits at its delimiters as long as the address has no `?` and the subject no `&`. */
  lemma ParseMailtoOf(to: string, s: string, b: string)
    requires '?' !in to && '&' !in s
    ensures ParseMailto("mailto:" + to + "?subject=" + s + "&body=" + b) ==
      match (UriComponent.Decode(s), UriComponent.Decode(b))
      case (Some(x), Some(y)) => Some((to, x, y))
      case _ => None
  {
    var query := "subject=" + s + "&body=" + b;
    var link := "mailto:" + to + "?" + query;
    assert "mailto:" + to + "?subject=" + s + "&body=" + b == link;
    assert link[..7] == "mailto:";
    assert link[7..] == to + ['?'] + query;
    Text.SplitAtFirstOf(to, '?', query);
    ParseQueryOf(s, b);
  }

  /** What `encodeURIComponent` gives holds none of the link's delimiters. */
  lemma EncodedHasNoDelimiter(t: string)
    ensures HasNoDelimiter(UriComponent.Encode(t))
  {
    var e := UriComponent.Encode(t);
    forall i | 0 <= i < |e|
      ensures !IsDelimiter(e[i])
    {
      assert UriComponent.IsUnreserved(e[i]) || e[i] == '%';
    }
  }

  /**
   * The route's records carry no `email` and no `subject`, so every link the
   * page offers for them is addressed to `undefined` with the subject
   * `undefined`; only the body is the record's.
   */
  lemma RouteRecordsLinkToUndefined(r: Representatives.SenatorResult)
    ensures ParseMailto(MailtoFor(RepOf(r))) == Some(("undefined", "undefined", r.body))
  {
    var u := "undefined";
    assert '?' !in u;
    assert MailtoFor(RepOf(r)) == CreateMailtoLink(u, u, r.body);
  }

  /** The page's state. */
  class Home {
    var formData: map<string, string>
    var loading: bool
    var error: string
    var results: seq<Rep>

    /** The form always has exactly the four inputs' fields. */
    predicate Valid()
      reads this
    {
      formData.Keys == InputNames
    }

    /** The initial state: an empty form, no search running, no error, no records. */
    constructor ()
      ensures Valid()
      ensures formData == map["firstName" := "", "lastName" := "", "userEmail" := "", "zipCode" := ""]
      ensures !loading && error == "" && results == []
    {
      formData := map["firstName" := "", "lastName" := "", "userEmail" := "", "zipCode" := ""];
      loading := false;
      error := "";
      results := [];
    }

    /** `handleInputChange`: the input named `name` now holds `value`, and every other field keeps its value. */
    method HandleInputChange(name: string, value: string)
      requires Valid() && name in InputNames
      modifies this
      ensures Valid()
      ensures formData[name] == value
      ensures forall k :: k in formData && k != name ==> formData[k] == old(formData)[k]
      ensures loading == old(loading) && error == old(error) && results == old(results)
    {
      formData := formData[name := value];
    }

    /** The start of `handleSearch`: a search runs, with no error and no records shown. */
    method BeginSearch()
      modifies this
      ensures formData == old(formData)
      ensures loading && error == "" && results == []
    {
      loading := true;
      error := "";
      results := [];
    }

    /** The rest of `handleSearch`, once the reply is in: records or a message, and the search is over. */
    method FinishSearch(fetched: Fetched)
      requires error == "" && results == []
      modifies this
      ensures formData == old(formData)
      ensures !loading
      ensures Outcome(fetched).Found? ==> results == Outcome(fetched).reps && error == ""
      ensures Outcome(fetched).Failed? ==> results == [] && error == Outcome(fetched).message
    {
      match fetched {
        case Threw(message) =>
          error := message;
        case Received(reply) =>
          if IsOk(reply.status) {
            results := reply.reps;
          } else {
            error := ReplyError(reply);
          }
      }
      loading := false;
    }

    /**
     * `handleSearch`: the form is posted as it stands, and whatever comes
     * back, the search ends with `loading` false and the form unchanged.
     */
    method HandleSearch(fetch: Representatives.RepsRequest -> Fetched)
      requires Valid()
      modifies this
      ensures Valid() && formData == old(formData)
      ensures !loading
      ensures var o := Outcome(fetch(RequestFromForm(formData)));
        && (o.Found? ==> results == o.reps && error == "")
        && (o.Failed? ==> results == [] && error == o.message)
    {
      BeginSearch();
      var fetched := fetch(RequestFromForm(formData));
      FinishSearch(fetched);
    }
  }
}
