# Waiting-list submission rules, modelled in Dafny

The waiting-list site collects two kinds of sign-up, *client* (someone who wants
cleaning done) and *contractor* (someone who wants to clean). Three pieces of
code judge a submission:

- the browser script (`script.js`) validates both forms and collects *every*
  failing field. It checks fields again when the user leaves one, formats the
  postal code as the user types, and sends the trimmed data, except the
  contractor's work answer, which is sent as given.
- the Express endpoint `POST /api/submit-form` (`server.js`) runs the same rules
  as boolean tests and stops at the first failure with a 400 and a fixed
  message. It then sanitises the record (trim, lower-cased email, upper-cased
  postal code, timestamp, caller address), relays it as JSON to the
  spreadsheet script, and answers 200 or a fixed 500.
- the Netlify function (`netlify/functions/submit-form.js`) is a shorter handler:
  - only POST is allowed (405 otherwise);
  - the JSON must parse;
  - `email` and `type` must be present;
  - the email regex runs on the raw address;
  - the script URL must be configured;
  - it posts `email`, `type` and `timestamp` form-encoded.

Modules:

| file | module | contents |
|---|---|---|
| `common.dfy` | `Common` | optional string fields (`Option`), JavaScript `!x` (`Falsy`) and `a \|\| b` (`Or`), the JSON body, the outcome of `fetch` |
| `text.dfy` | `Text` | the whitespace set of `\s` and `trim`, `trim`, ASCII case mapping, counting and finding a character |
| `patterns.dfy` | `Patterns` | the name, email and postal-code regular expressions as predicates, and an independent statement of the email rule proved equal to the regex |
| `chain.dfy` | `Chain` | a fail-fast list of checks and the index of the first that fails |
| `client.dfy` | `Client` | `script.js`: validators, the two collect-all submit handlers (methods), `validateField`, the postal-code formatter |
| `server.dfy` | `Server` | `server.js`: boolean validators, the check chain, sanitising, the handler |
| `netlify.dfy` | `Netlify` | `netlify/functions/submit-form.js`: the handler and its steps |
| `agreement.dfy` | `Agreement` | how the three copies relate |

Inputs the code reads from its surroundings are parameters:
- the form fields (`FormData.get`);
- the parsed JSON body;
- the clock (`timestamp`);
- `req.ip`;
- the `GOOGLE_SCRIPT_URL` environment variable;
- the result of `fetch` (`Outcome`: a 2xx reply, another status, or a rejected promise).

What the code does, where a reader might expect otherwise:
- For `/api/submit-form` the Express server registers only POST, so it has no 405 path there. A GET to that path finds no static file and no route, so Express's default handler answers 404; that fallback is not part of this model. Only the Netlify function answers 405. The server's other route, `GET /api/health`, answers a fixed status and the time.
- `canWorkInCanada` is not restricted to `yes` or `no`: any non-empty value passes (`Server.ValidateContractorFields`).
- The browser's validators and the server's agree field by field (`Agreement.*Agrees`). The browser, however, runs the contractor's experience through the details validator with type `contractor`, which always passes, so the two disagree on a contractor form with a short or empty experience (`Agreement.ContractorPayloadJudgedOnExperience`).
- Neither handler sets a timeout on the relay call. A hung upstream call is not modelled, because `fetch` is a parameter that always returns.
- An unset or empty `GOOGLE_SCRIPT_URL` makes the Express server's `fetch` reject before any request is made: a 500 with nothing relayed.

## Model

| member | source | states |
|---|---|---|
| Text.Trim | server.js:56 | `trim`: the result is no longer than the input and has no whitespace at either end |
| Text.Upper | server.js:153 | ASCII `toUpperCase`: same length, no lower-case letter left, each lower-case letter becomes the letter 32 code points below it, every other character unchanged |
| Text.Lower | server.js:152 | ASCII `toLowerCase`: same length, no upper-case letter left, each upper-case letter becomes the letter 32 code points above it, every other character unchanged |
| Patterns.NameShape | script.js:216 | a string matching the name regex holds no digit and no `@` |
| Patterns.EmailShape | script.js:226-227 | a string matching the email regex has at least 5 characters and an `@`; `Patterns.EmailShapeIsRule` gives the full rule |
| Patterns.PostalShape | script.js:240-241 | a string matching the postal regex has 6 or 7 characters, starts with a letter and ends with a digit |
| Text.TrimWithin | server.js:56 | `trim` returns a contiguous slice of its input, and only whitespace lies outside that slice |
| Text.TrimIdempotent | script.js:377-380 | trimming a value the browser already trimmed changes nothing |
| Text.TrimLower | server.js:152 | lower-casing does not move whitespace, so it commutes with `trim` |
| Text.TrimUpper | server.js:153 | upper-casing commutes with `trim` |
| Text.IndexOf | script.js:227 | the first occurrence of a character: nothing before it matches, and it is the character when found |
| Text.OccurrencesNone | script.js:227 | a character occurs zero times exactly when no position holds it |
| Patterns.EmailShapeIsRule | script.js:226-227 | the email regex accepts exactly the strings with no whitespace, one `@` with text before it, and a `.` inside the domain with text on both sides |
| Patterns.EmailShapeLower | server.js:152 | a lower-cased matching address still matches |
| Patterns.PostalShapeUpper | server.js:153 | an upper-cased matching postal code still matches |
| Chain.FirstFailure | server.js:105-146 | the index of the first failing check: every earlier check passes, and there is none exactly when all pass |
| Client.ValidateName | script.js:209-220 | valid iff the trimmed name has 2 to 50 characters, all letters, whitespace, `-` or `'`; a missing name or under 2 gets the too-short message, over 50 the too-long message, and 2 to 50 with another character the bad-characters message |
| Client.ValidateEmail | script.js:222-234 | valid iff the trimmed address follows the email rule and has at most 100 characters; a missing or blank address gets the required message, a non-empty non-matching one the format message (even when too long), and a matching one over 100 characters the too-long message |
| Client.ValidatePostalCode | script.js:236-245 | valid iff the trimmed code is letter-digit-letter, optional single space, digit-letter-digit; a missing or blank code gets the required message and any other non-matching code the format message |
| Client.ValidateCleaningDetails | script.js:247-260 | any type other than `client` is valid; for `client`, valid iff 10 to 500 trimmed characters, with the required message when missing or blank, the too-short message for 1 to 9 characters and the too-long message over 500 |
| Client.ValidateContractorFields | script.js:262-278 | only a contractor is checked: valid iff the work answer is non-empty and the experience has 10 to 500 trimmed characters; a missing or empty work answer gets the work-authorisation message first, then a missing or blank experience the required message, 1 to 9 characters the too-short message and over 500 the too-long message |
| Client.FailuresEmpty | script.js:369-372 | the collect-all pass shows nothing exactly when every check passed |
| Client.FailuresComplete | script.js:334-367 | every failing check's message is shown under its field |
| Client.FailuresSound | script.js:334-367 | every message shown comes from a failing check |
| Client.ReportClientChecks | script.js:340-366 | the four `if (!v.isValid)` blocks show each failing verdict's message under its field, in order, and set the error flag iff something was shown |
| Client.ReportContractorChecks | script.js:409-440 | the same for the contractor form's five blocks, the work answer's inline check included |
| Client.SubmitClientForm | script.js:324-385 | errors shown are exactly the failures of all four checks in order; otherwise the trimmed fields are sent with type `client`, and this handler never throws |
| Client.SubmitContractorForm | script.js:392-460 | errors shown are exactly the failures of all five checks; the work answer is sent untrimmed; with no failures a missing experience field throws |
| Client.ReportedUnder | script.js:334-367 | message `m` is shown under a check's field iff that check failed with `m`, since field ids are distinct |
| Client.ClientCollectAll | script.js:334-367 | for every field of the client form, its message is shown iff its validator failed with it, independent of the other fields |
| Client.ContractorCollectAll | script.js:402-440 | the same for the contractor form's five fields |
| Client.ContractorExperienceNeverFlagged | script.js:436-440 | the contractor form never shows an error under the experience field |
| Client.ValidateField | script.js:592-627 | on blur, a name, email or postal field of either form shows exactly the message its validator gives, and nothing iff it passes; details show the client details validator's message, so one iff outside 10 to 500 trimmed characters; experience and unknown ids show none |
| Client.BlurAgreesWithSubmit | script.js:592-620 | on blur a client field shows message `m` iff the submit handler would show `m` under it for the same values |
| Client.StripNonAlnum | script.js:490 | the cleaned value holds only upper-case letters and digits, and is no longer than its input |
| Client.StripOne | script.js:490 | one character is kept exactly when it is `A`-`Z` or `0`-`9`; with `Client.StripConcat` this fixes the result as the input's letters and digits in order |
| Client.StripConcat | script.js:490 | cleaning a concatenation is concatenating the cleaned parts |
| Client.StripCounts | script.js:490 | every upper-case letter and digit occurs in the cleaned value as often as in the input |
| Client.FormatPostalCode | script.js:487-499 | the formatted value has at most 7 characters: a space at index 3 and upper-case letters or digits elsewhere |
| Client.FormatKeepsInput | script.js:487-499 | the formatted value holds exactly the first six letters and digits of the upper-cased input, in order, plus the one space once there are at least three |
| Client.FormatIdempotent | script.js:487-499 | formatting an already formatted value changes nothing |
| Client.FormatAlternatingIsValid | script.js:487-499 | a value whose letters and digits begin with letter-digit-letter digit-letter-digit is shown as `A1A 1A1`, which the postal validator accepts |
| Client.FormatKeepsValidCodes | script.js:487-499 | a code the validator accepts, formatted, is still accepted and has exactly 7 characters |
| Client.FormatExample | script.js:487-499 | `k1a0b1` is shown as `K1A 0B1` |
| Server.ValidateName | server.js:54-59 | accepted only with 2 to 50 trimmed characters, none a digit or `@`; every trimmed name of that length matching the name regex is accepted |
| Server.ValidateEmail | server.js:61-67 | accepted iff the trimmed address has at most 100 characters and follows the email rule (no whitespace, one `@` with text before it, a `.` inside the domain) |
| Server.ValidatePostalCode | server.js:69-76 | accepted iff the trimmed code matches the postal regex, so it has 6 or 7 characters |
| Server.Checks | server.js:104-146 | six checks in the handler's order, each answering 400 with one of the six rejection messages; the first is the type check |
| Server.Validate | server.js:104-146 | a failure is one of the six rejection messages; passing means a known type and valid name, email and postal code |
| Server.ValidateCleaningDetails | server.js:78-85 | any type other than `client` passes |
| Server.ValidateContractorFields | server.js:87-97 | any type other than `contractor` passes; with a valid experience a contractor passes iff the work answer is any non-empty string |
| Server.ValidateIsFailFast | server.js:105-146 | the handler's validation returns the message of the first failing check in the list type, name, email, postal, details, contractor fields, and nothing iff all pass |
| Server.Sanitize | server.js:149-164 | the name is the trimmed name, the email the trimmed lower-cased email, the postal code the trimmed upper-cased code (same length, so no space inserted); type, timestamp and address are passed through; a client record carries only the trimmed details, a contractor record only the raw work answer and the trimmed experience, any other type none of them; it fails (a `.trim()` throws) iff a used field is missing |
| Server.SubmitForm | server.js:100-194 | status 200, 400 or 500; success iff 200; 400 iff validation fails, with one of the six messages; every 500 is the same fixed response; a request is made only with a non-empty script URL and carries the sanitised record; 200 iff the request was made and the upstream answered 2xx |
| Server.SubmitFormResponds | server.js:100-194 | the 400 message is the first failing check's; the record is relayed iff all checks pass, the URL is non-empty and sanitising succeeds |
| Server.UnknownTypeRejectedFirst | server.js:105-110 | a type other than exactly `client` or `contractor` gets "Invalid form type" whatever the other fields hold |
| Server.ClientWithoutDetailsFailsLate | server.js:134-160 | a client sending only `cleaningExperience` passes validation and then gets the 500, with nothing relayed |
| Server.ClientWithEmptyDetailsIsRelayed | server.js:134-160 | a client with empty details but a valid experience is relayed with empty details |
| Server.SanitizeIdempotent | server.js:149-164 | sanitising a sanitised record again gives the same record |
| Server.SanitizedRecordRevalidates | server.js:149-164 | a relayed record passes the server's own checks again, unless a client's details were empty |
| Server.ClientSignupScenario | server.js:100-185 | the sample client Jane Doe is accepted with 200 |
| Server.BadContractorScenario | server.js:113-118 | the sample contractor with every field wrong gets "Invalid name", the first failure |
| Netlify.Handler | netlify/functions/submit-form.js:3-126 | non-POST gives 405 whatever the body; 400 iff a field is missing or the raw email does not match; a request is made only after every check, with exactly email, type and timestamp; 200 iff it was made and answered 2xx; only 200 and the caught 500 carry CORS headers |
| Netlify.FormBody | netlify/functions/submit-form.js:55-58 | three fields with distinct keys |
| Netlify.Get | netlify/functions/submit-form.js:55-58 | `URLSearchParams.get`: a value is found iff some pair has the key, and it is the value of the first pair with that key |
| Netlify.FormBodyReadsBack | netlify/functions/submit-form.js:55-58 | the upstream script reads back exactly the email, the type and the timestamp, and nothing under any other key |
| Netlify.HandlerIsFailFast | netlify/functions/submit-form.js:5-84 | the status and text are those of the first failing step in method, parse, presence, email, configuration, upstream, and 200 when none fails |
| Netlify.AnyTypeIsRelayed | netlify/functions/submit-form.js:17-57 | any non-empty `type` is accepted and posted as given |
| Netlify.UpstreamFailureIsOpaque | netlify/functions/submit-form.js:80-124 | a non-2xx reply and a transport error give the same response: upstream details are not passed on |
| Agreement.NameAgrees | server.js:55-60 | the server's name test accepts exactly what the browser's validator accepts |
| Agreement.EmailAgrees | server.js:62-68 | the same for the email test, so the server also follows the email rule with the 100-character cap |
| Agreement.PostalCodeAgrees | server.js:70-76 | the same for the postal-code test |
| Agreement.CleaningDetailsAgree | server.js:78-85 | the same for the details test, for every type |
| Agreement.ContractorFieldsAgree | server.js:87-97 | the same for the contractor test |
| Agreement.ClientFormAgrees | server.js:105-139 | the browser finds nothing wrong with a client form iff the server's checks pass on the same untrimmed fields |
| Agreement.ClientPayloadAccepted | script.js:375-381 | what the client form sends passes the server's checks and sanitises without error |
| Agreement.ContractorPayloadJudgedOnExperience | script.js:449-456 | what the contractor form sends is accepted by the server iff the experience has 10 to 500 trimmed characters, and is otherwise refused with "Invalid contractor fields" |
| Agreement.NetlifyDoesNotTrim | netlify/functions/submit-form.js:28-37 | an address with a leading space passes the server's test but the Netlify function answers 400 "Invalid email format" |
| Agreement.NetlifyHasNoLengthCap | netlify/functions/submit-form.js:28-37 | a matching address over 100 characters is relayed by the Netlify function and refused by the server |
| Agreement.ServerKeepsUnspacedPostalCode | server.js:153 | the server stores a six-character code without the space the browser's formatter would insert |

## Left out

- Page markup, styling, modals, notifications, field error display (`showFieldError`, `clearFieldError`) and the character counters: only what the handlers decide is modelled. `Client.FieldError` stands for a message shown under a field.
- `submitToWaitingList` (a `no-cors` POST whose reply cannot be read): the model stops at the data handed to it (`Client.Decision.Send`).
- Express middleware (helmet, CORS origins, the rate limiter, the 1 MB body limit, static files) and the health endpoint: they wrap the handler and decide nothing about a submission.
- The real network, logging, the clock and `req.ip`: `fetch`'s outcome, the timestamp and the address are parameters.
- `JSON.parse`, `express.json` and `URLSearchParams` encoding: the body is given as parsed fields. A body that parses to `null` is treated like one that does not parse. `Netlify.FormBody` gives the field pairs, not their percent-encoded text.
- Non-string JSON values (numbers, arrays) in the body: every field is either absent or a string.
- Text.Upper: maps only ASCII letters, whereas `toUpperCase` also maps other scripts. Text.Lower likewise. String lengths count code points, not UTF-16 units.
- Server.SubmitForm and Netlify.Handler: a non-empty script URL that is not an absolute URL also makes `fetch` reject before any request is made; the model treats every non-empty URL as reachable and leaves its failure to the `fetch` outcome, so it records the request as made (the sanitised record, or the three Netlify fields).
- `config.js` and `tailwind.config.js` are not part of this model (site configuration and styling).
