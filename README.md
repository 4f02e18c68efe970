# Advocacy emailer, modelled in Dafny

This is a model of the server routes and the client page of a Next.js application. With it, a constituent can write to the two US senators of their state. The parts are:

- **Representatives route** (`app/api/representatives/route.ts`). It checks the sender's details and resolves their ZIP code to a state with the Zippopotam service. It looks the state up in a fixed table of senators, and answers with one record per senator. Each record carries the same advocacy message, signed with the sender's name.
- **Payment route** (`app/api/create-payment-intent/route.ts`). It prices an order of letters ($1.10 each) or faxes ($0.25 each) in cents. It asks Stripe for a payment intent of that amount.
- **Letter route** (`app/api/send-letter/route.ts`). It submits one printed letter per senator to Lob. Each letter is addressed to the Senate and sent from the user's address. The request succeeds only if every submission does.
- **Fax route** (`app/api/send-fax/route.ts`). It checks the Sinch configuration. It wraps each message in an HTML page and base64-encodes its UTF-8 (section 4 of RFC 4648). It sends the page with HTTP Basic credentials (section 2 of RFC 7617), and answers with the fax ids in senator order when every fax was accepted.
- **Page** (`app/page.tsx`). It holds the form state and posts it to the representatives route. It keeps either the records or an error message, and offers a `mailto:` link (RFC 6068) per record. The subject and body are percent-encoded as `encodeURIComponent` does (section 2.1 of RFC 3986).

Files and modules:

- `wrappers.dfy`: `Option`, JavaScript's `||` fallback for strings, and a JSON field that should hold an array.
- `text.dfy`: `split`, `join`, global `replace` of one character, `trim`, and decimal `toString`.
- `utf8.dfy`: UTF-8 encoding and decoding.
- `base64.dfy`: base64 encoding and decoding.
- `uri_component.dfy`: `encodeURIComponent` and `decodeURIComponent`.
- `senator_table.dfy`: the `SENATOR_DATA` table, with one function per state in source order.
- `representatives.dfy`, `payment_intent.dfy`, `send_letter.dfy`, `send_fax.dfy`, `home_page.dfy`: the five core files.

External services are parameters, as functions from the request to what came back:

- the ZIP-code lookup;
- Stripe;
- Lob;
- Sinch;
- the page's `fetch`.

Lob and Sinch also receive the position of each send. Two identical letters or faxes are separate submissions, so they can get different answers. In 31 of the 50 states both senators share one fax number, which makes the state's two fax requests identical.

The representatives, payment, letter and fax routes also return the requests they issued. This makes "no lookup", "no intent", "no letter" and "no fax" statements the model can prove. The page's search does not record what it posts.

The routes are pure request/response logic, so they are Dafny functions. The two send routes loop over the senators, so each has a method with a loop:

- `SendLetter.SubmitAll` submits each letter, after `SendLetter.Post` has built one per senator;
- `SendFax.SendAll` sends each fax and collects the ids.

Both are proved against functions that describe each request. The page's state (`formData`, `loading`, `error`, `results`) is the class `HomePage.Home`, and its methods are the handlers' state updates.

The representatives `Post` takes the route's fixed data as a parameter: the senator table and the message text. `Representatives.Handle` applies it to `Representatives.Deployed`, which holds `SenatorTable.SenatorData` and the message text `LetterText`, verbatim. Every table entry has exactly two senators, because `Delegation` is a pair. Each fax number is kept as the ten digits after `+1`, and `Senator.Fax` writes it out; that every written number is `+1` and ten digits is proved once, for all entries.

The files compose. The composition shows two mismatches between the page and the representatives route, which the model states as the code has them:

- The page posts a form without `streetAddress`, and the route refuses any request without one. So every search from the page ends with a 400 message (`HomePage.SearchFromFormIsRefused`).
- The page builds its links from `rep.email` and `rep.subject`, and the route's records have neither field. So every link is addressed to `undefined` with the subject `undefined` (`HomePage.RouteRecordsLinkToUndefined`).

The code offers two actions, letters and faxes, with no payment step before sending; each send route succeeds for all senators or reports one failure.

## Model

| member | source | states |
|---|---|---|
| Text.Split | app/api/send-letter/route.ts:43 | `split(' ')` gives at least one part and no part holds the separator. It gives exactly one part iff the separator is absent, and then the part is the whole string |
| Text.JoinSplit | app/api/send-letter/route.ts:43 | joining the parts of a split with the separator gives the string back |
| Text.LastOfSplit | app/api/send-letter/route.ts:43 | the part `pop()` returns is the longest separator-free suffix: it is the whole string or follows a separator |
| Text.ReplaceAll | app/api/send-letter/route.ts:46 | replacing a character by text without it leaves no occurrence; a string without the character is unchanged |
| Text.ReplaceAllIsSplitJoin | app/api/send-letter/route.ts:46 | a global replace equals splitting at the character and joining with the replacement |
| Text.IsBlank | app/api/representatives/route.ts:71 | `!s.trim()` holds iff every character is ECMAScript white space or a line terminator |
| Text.NatToDecimal | app/api/create-payment-intent/route.ts:34 | `toString()` of a non-negative integer is a non-empty string of digits, with a leading zero only for 0 |
| Text.DecimalRoundTrip | app/api/create-payment-intent/route.ts:34 | the decimal text of n reads back as n |
| Text.DecimalInjective | app/api/send-fax/route.ts:87 | distinct numbers have distinct decimal texts |
| Utf8.Encode | app/api/send-fax/route.ts:52 | the UTF-8 of a string has at least one octet per character |
| Utf8.DecodeEncode | app/api/send-fax/route.ts:52 | decoding the UTF-8 of a string gives the string back |
| Utf8.EncodeAppend | app/api/send-fax/route.ts:52 | UTF-8 encoding distributes over concatenation |
| Base64.Encode | app/api/send-fax/route.ts:52 | base64 text is whole groups of four characters, each an alphabet character or `=` |
| Base64.EncodedLength | app/api/send-fax/route.ts:52 | base64 text has length 4·⌈n/3⌉ for n octets |
| Base64.DecodeEncode | app/api/send-fax/route.ts:52 | decoding the base64 of any octets gives the octets back |
| UriComponent.Encode | app/page.tsx:57 | `encodeURIComponent` output holds only unreserved characters and `%`, and keeps every unreserved character of the input |
| UriComponent.DecodeEncode | app/page.tsx:57 | `decodeURIComponent(encodeURIComponent(s)) == s` for every string |
| SenatorTable.Senator.Fax | app/api/representatives/route.ts:5-62 | every fax number in the table is `+1` followed by ten decimal digits |
| SenatorTable.FaxReadsBack | app/api/representatives/route.ts:5-62 | the ten digits after `+1` denote the entry's fax digits, so distinct numbers are written distinctly |
| SenatorTable.Delegation.Members | app/api/representatives/route.ts:4-63 | every state's entry lists exactly two senators, each with a `+1` and ten-digit fax number |
| Representatives.Results | app/api/representatives/route.ts:100-107 | one record per senator, in table order, copying name, contact URL, fax and phone, each with the same body and state |
| Representatives.ChecksPrecedeLookup | app/api/representatives/route.ts:70-76 | a ZIP code without 5 characters gives 400 first, then blank names or address or an e-mail without `@` give 400. The ZIP-code service is asked iff both checks pass, once, at the URL ending in the ZIP code |
| Representatives.Post | app/api/representatives/route.ts:65-115 | the ZIP-code service is asked at most once, and records come back only after it was asked for the request's ZIP code |
| Representatives.LookupFailures | app/api/representatives/route.ts:76-82 | an unknown ZIP code gives 404 with source `zippopotam`; a failed lookup gives 500; a resolved state missing from the table gives 404 naming that state |
| Representatives.SuccessfulSearch | app/api/representatives/route.ts:81-109 | success iff the checks pass, the lookup finds a place and the table has its state. Then there are two records copying the state's senators in order, each with a valid fax number, the same body and the resolved state |
| Representatives.MessageEndsWithSignature | app/api/representatives/route.ts:84-98 | the message is the fixed text followed by the first and last name, untrimmed, joined by a space |
| Representatives.SignatureDeterminesMessage | app/api/representatives/route.ts:84-98 | two messages are equal iff their signatures are |
| PaymentIntent.ParseActionType | app/api/create-payment-intent/route.ts:19 | an action is recognised iff the field is `letter` or `fax`, and it is named by that field |
| PaymentIntent.ActionNamesRoundTrip | app/api/create-payment-intent/route.ts:19 | each action is recognised under its own name |
| PaymentIntent.Validate | app/api/create-payment-intent/route.ts:19-21 | an order is accepted iff the action is known and `senatorCount` is present and at least 1; the order keeps both |
| PaymentIntent.PriceIsLinear | app/api/create-payment-intent/route.ts:24-25 | the amount (`TotalAmount`) for n items is n times the amount for one, and each further item adds the unit price |
| PaymentIntent.Prices | app/api/create-payment-intent/route.ts:9-12 | a letter costs 110 cents and a fax 25 |
| PaymentIntent.Intent | app/api/create-payment-intent/route.ts:28-39 | the intent is for the order's amount in `usd` with wallets enabled, and the action in its metadata reads back as the order's |
| PaymentIntent.IntentRecordsOrder | app/api/create-payment-intent/route.ts:28-35 | the intent's metadata names the action and holds the count as decimal digits that read back as the count |
| PaymentIntent.Post | app/api/create-payment-intent/route.ts:14-48 | at most one intent is requested; a checkout has exactly one, answers with the client secret Stripe gave for it and the amount it was created for |
| PaymentIntent.RejectsWithoutIntent | app/api/create-payment-intent/route.ts:19-28 | an invalid request gets 400 and no intent, and a valid one requests exactly the intent for its order |
| PaymentIntent.CheckoutAmountIsCharged | app/api/create-payment-intent/route.ts:28-42 | on success the response has Stripe's client secret and the amount requested in `usd`, which is unit price × count |
| PaymentIntent.StripeFailure | app/api/create-payment-intent/route.ts:44-47 | a Stripe error gives 500 with its message, or `Internal Server Error` when it has none |
| SendLetter.ErrorMessage | app/api/send-letter/route.ts:90 | the failure message is never empty. It is the error's message, Lob's nested message, or the fixed fallback |
| SendLetter.ErrorMessagePrecedence | app/api/send-letter/route.ts:90 | the error's own message wins when non-empty, and otherwise the nested message, then the fallback |
| SendLetter.SalutationIsLastWord | app/api/send-letter/route.ts:43 | the salutation is a space-free suffix of the name that is the whole name or follows a space |
| SendLetter.SalutationAfterLastSpace | app/api/send-letter/route.ts:43 | the salutation is everything after the name's last space |
| SendLetter.SalutationOfLujan | app/api/send-letter/route.ts:43 | "Ben Ray Luján" is greeted as "Luján" |
| SendLetter.BodyHasNoNewline | app/api/send-letter/route.ts:46 | the inserted body has no line feed and is the lines joined by `<br>`; a body without line feeds is unchanged |
| SendLetter.LetterFor | app/api/send-letter/route.ts:54-78 | the letter is to "The Honorable" the senator's full name, dated with the given date, with the description `Advocacy Letter to Sen. <name> from <sender>`. It greets the senator by the name's last space-separated word: a space-free suffix that is the whole name or follows a space. Its body is the senator's message split at line feeds and joined with `<br>`, so no line feed is left |
| SendLetter.LetterAddressesAndOptions | app/api/send-letter/route.ts:54-78 | the recipient address depends only on the senator's name and is `Senator <name>`, United States Senate, Washington, DC 20510. The return address is the sender's name and the user's street, city, state and ZIP, unchanged. Every letter is operational, black and white, double sided, addressed on the first page |
| SendLetter.SubmitAll | app/api/send-letter/route.ts:80-91 | the result is success iff Lob created every letter, each answered at its own position; otherwise 500 with the message of some failed submission |
| SendLetter.Post | app/api/send-letter/route.ts:14-91 | an invalid request gets 400 with no letter. Otherwise there is exactly one letter per senator, in order. The result is success iff Lob created every letter, each answered at its own position; otherwise 500 with the message of some failed submission |
| SendFax.FaxHtml | app/api/send-fax/route.ts:33-43 | the page is the fixed head, the message verbatim, and the fixed tail |
| SendFax.FaxFor | app/api/send-fax/route.ts:46-81 | the request has one file, which decodes (base64, then UTF-8) to the senator's page; a missing `body` is written as `undefined` |
| SendFax.Requests | app/api/send-fax/route.ts:46 | one request per senator |
| SendFax.RequestsFollowSenators | app/api/send-fax/route.ts:46-81 | the request at each position is the one built for the senator at that position |
| SendFax.FaxRequestFields | app/api/send-fax/route.ts:56-81 | each send goes to the project's endpoint with the configured credentials, to the senator's fax from the configured number. It has one HTML file of the senator's page, header page numbers and halftone conversion |
| SendFax.FailureMessage | app/api/send-fax/route.ts:84-106 | the message of a failed send is never empty. It is `Sinch Error: <status> - <text>` for a reply that is not ok, the parse error's message for an ok reply that is not JSON, and the `fetch` error's message otherwise, each falling back to the fixed text |
| SendFax.FaxFileDecodes | app/api/send-fax/route.ts:33-52 | the file decodes (base64, then UTF-8) to the page, which holds the message verbatim after the fixed markup |
| SendFax.AuthorizationDecodes | app/api/send-fax/route.ts:77 | the header is `Basic ` and base64 text decoding to `key:secret`, which splits back into key and secret when the key has no colon |
| SendFax.SinchErrorTextIsUnambiguous | app/api/send-fax/route.ts:87 | `Sinch Error: <status> - <text>` is equal for two replies iff their statuses and texts are |
| SendFax.SendAll | app/api/send-fax/route.ts:84-106 | the fax ids (`null` where a reply has none) are returned, one per request in order, iff every reply is ok and parses as JSON, each reply taken at its own position, so identical requests may fare differently; otherwise 500 with the message of some failed send |
| SendFax.Post | app/api/send-fax/route.ts:13-106 | missing configuration gives 500 and an invalid request 400, both with nothing sent. Otherwise the requests sent are one per senator, with the ids iff all are ok and parse as JSON, else 500 with a failed send's message |
| HomePage.ReplyError | app/page.tsx:38-44 | the message for a non-ok reply is never empty. It is the fixed ZIP-code text, the server's error, or the fixed fallback |
| HomePage.ReplyErrorPrecedence | app/page.tsx:40-43 | a 404 from `zippopotam` shows the fixed ZIP-code text whatever the server said; otherwise the server's error if non-empty, else the fallback |
| HomePage.Outcome | app/page.tsx:29-48 | records are kept iff a reply came and it is ok; a thrown error shows its message, and a non-ok reply shows its mapped message |
| HomePage.RequestFromForm | app/page.tsx:33 | the posted body carries the four form fields and no street address |
| HomePage.SearchFromFormIsRefused | app/page.tsx:6-11 | a search from the page never reaches the ZIP-code service and always shows a 400 message of the route |
| HomePage.RouteAnswersOnPage | app/page.tsx:36-46 | the route's records arrive one for one with their bodies; its unknown-ZIP 404 shows the fixed text; its other failures show the route's own message |
| HomePage.EncodedHasNoDelimiter | app/page.tsx:57 | an encoded subject or body has no `&`, `=`, `?`, `#`, space or line feed |
| HomePage.ParseQueryOf | app/page.tsx:57 | the query `subject=…&body=…` splits back into its two decoded values when the subject has no `&` |
| HomePage.ParseMailtoOf | app/page.tsx:57 | a link of the built shape splits back at its delimiters when the address has no `?` and the subject no `&` |
| HomePage.CreateMailtoLink | app/page.tsx:55-58 | the link reads back as the address, subject and body it was made from, when the address has no `?` |
| HomePage.RouteRecordsLinkToUndefined | app/page.tsx:138 | for every record of the route, the link reads back as address `undefined`, subject `undefined` and the record's body |
| HomePage.Home.constructor | app/page.tsx:6-14 | the form starts with four empty fields, and no search runs, with no error and no records |
| HomePage.Home.HandleInputChange | app/page.tsx:16-21 | exactly the named field takes the new value; every other field and the rest of the state are unchanged |
| HomePage.Home.BeginSearch | app/page.tsx:25-27 | a search starts with `loading` true, no error and no records |
| HomePage.Home.FinishSearch | app/page.tsx:29-51 | the search ends with `loading` false, and either the reply's records and no error, or no records and the outcome's message |
| HomePage.Home.HandleSearch | app/page.tsx:23-52 | the current form is posted and the form is unchanged. Whatever comes back, `loading` ends false with the outcome's records or message |

## Left out

- **External services.** Only their request and reply are modelled:
  - the Zippopotam fetch and its JSON;
  - the Stripe, Lob and Sinch SDK or HTTP calls;
  - the page's `fetch`.

  `Representatives.ZipLookup` folds three cases into `Failed`: a fetch that throws, a reply without `places[0]`, and a reply that is not JSON.
- **Promise.all concurrency.** The sends are issued one after another in senator order. Which failure `Promise.all` rejects with depends on timing, so `SendLetter.SubmitAll` and `SendFax.SendAll` promise only that the message is that of some failed send.
- **Synchronous throws inside the `map` callbacks are not modelled.** An example is a letter for a senator whose `name` or `body` is missing, which makes `split` or `replace` throw. In the fax route a missing `body` does not throw; it is modelled, and the page then carries `undefined`.
- **JSON values of the wrong type** (a number where a string is read, for example) are not modelled. Request fields are absent or strings, and `senatorCount` is absent or an integer. A payment request whose `senatorCount` is a fraction, a string or a boolean is not modelled either.
- **Unparseable request bodies.** `request.json()` failure is modelled only for the representatives route, which answers 500. In the other routes it leads to the same catch-all 500 and is not modelled. An ok page reply without a `reps` array is not modelled.
- **`Object.prototype` keys.** A key such as `constructor` is truthy in `SENATOR_DATA[...]` and is not modelled. The table is a lookup over its own 50 keys. `SenatorTable.SenatorData` has no contract of its own, because a proof through all 50 entries is too costly. What every entry holds is stated by `SenatorTable.Delegation.Members`.
- **String lengths.** `zipCode.length` counts UTF-16 code units; the model counts Unicode scalar values. They differ only for characters outside the Basic Multilingual Plane. Dafny strings cannot hold lone surrogates, so the `URIError` of `encodeURIComponent` does not arise.
- **The letter's date** comes from the clock and the locale, so `SendLetter.Post` takes it as a parameter.
- **Environment variables** are `SinchConfig` values for the Sinch settings. The Stripe and Lob keys are not modelled.
- **Logging and response objects.** `console` logging is left out, and `NextResponse` construction is reduced to the status and the message.
- **Markup.** The JSX rendering, the CSS, and the letter's HTML styling are left out. The letter's file is the record of the values its template receives (`SendLetter.LetterFile`). The fax page's markup around the message is a pair of fixed strings.
- **Stripe's own rules** are not modelled, such as its minimum charge or its maximum amount.
- NatToDecimal: gives plain decimal digits for every natural number. JavaScript's `toString()` gives those only below 10^21 and writes larger numbers in exponent form (`1e+21`).
- IntentRecordsOrder: the metadata reads back as the count only for counts below 10^21, because of the exponent form above. The model does not bound the count, so for larger counts its statement is stronger than what the code does.
- CheckoutAmountIsCharged: `unitPrice * senatorCount` is a double in the code. It equals the exact product only while the product stays at or below 2^53 cents; above that the code's amount is rounded, and the model's `TotalAmount` is not.
- SendFax.SendAll: a Sinch reply that is ok but whose body parses to JSON `null` (or another non-object) makes `r.id` throw after `Promise.all`, and the route answers 500 with that error's message; the model's parsed replies are objects. An `id` that is not a string is not modelled either.
- SendFax.Post: has the same gap as `SendFax.SendAll` for ok replies whose JSON is not an object. The fax route's senator `name` is only logged and is left out.
- **`Representatives.Handle`** is `Post` over the deployed data and has no contract of its own: a proof that mentions the deployed message text has to unfold a literal of about 1,800 characters, which is too costly. Its properties are stated for `Post` with any table and any message text. The table's own properties belong to `SenatorTable`. No lemma is stated about the exact wording of `LetterText`.
