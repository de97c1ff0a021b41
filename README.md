# Quick-sale submission handler, modelled in Dafny

This project models the `POST /api/send` handler of the used-car quick-sale
backend (`index.js`). A visitor submits a car number, a phone number, a region
and a mileage. The handler:

1. checks that all four are non-blank strings;
2. mails the submission to the administrator;
3. normalises the configured sender, manager and dealer phone numbers to digits;
4. builds an SMS text of at most 45 JavaScript length units;
5. signs a request for the SMS provider (an `HMAC-SHA256 apiKey=…, date=…, salt=…, signature=…` header);
6. sends one batch with a message per recipient.

Every way out of that sequence maps to a status code and an error tag:

- 400 `invalid_payload`;
- 500 `send_failed` for a failed mail, a missing sender number, a throwing signer or any other error;
- 400 `no_sms_recipients`;
- 400 `sms_too_long`;
- 200 with the provider's data;
- 502 `sms_failed`.

Files, one module each (the last file holds two):

- `wrappers.dfy`: `Option` and `Result`.
- `js.dfy`, module `Js`: the JavaScript notions the handler relies on. These are truthiness and `||`, `String.prototype.trim` with its white-space set, `.length` in UTF-16 code units, decimal rendering of a count, `join`, a `split` inverse, and error objects.
- `validation.dfy`, module `Validation`: `required` and the four-field gate.
- `phone_numbers.dfy`, module `PhoneNumbers`: `replace(/[^\d]/g, '')` and `[toManager, toDealer].filter(Boolean)`.
- `sms.dfy`, module `Sms`: the two SMS templates, the `sms_too_long` message, and the batch request.
- `mail.dfy`, module `Mail`: the notification mail.
- `signer.dfy`, module `Signer`: the authorization header format, with a parser that reads it back.
- `handler.dfy`, two modules:
  - `Handler`: the handler as an imperative method `HandleSend`. It returns the response and a ghost trace of outbound calls (mail, SMS). It is proved equal to the gate function `Expected`.
  - `HandlerProperties`: the lemmas about `Expected`.

The outside world is a parameter `Env`:

- the mail transport and the SMS provider, as functions from the outgoing message to how the call settles;
- the HMAC computation, which may throw;
- the clock reading;
- the random salt.

Environment variables are a `Config` of optional strings. An unset variable is `None`. Interpolated into a template, `None` renders as `undefined`; under `|| ''` it is empty.

Two consequences of the code are easy to miss:

- **The fallback never rescues.** index.js:87 tries the slash template only when the primary text is over 45, evidently to shorten it. Both templates put one one-unit separator between the same four fields, however, so they always have the same length (`Sms.FallbackSameLength`). `sms_too_long` therefore happens exactly when the primary text is over 45, and the text sent is always the primary one.
- **An unset API secret is a 500.** Signing with an unset `SOLAPI_API_SECRET` throws inside `createHmac` (index.js:38). The error reaches the outer catch as 500 `send_failed`. It is modelled by the HMAC input returning an error.

## Model

| member | source | states |
|---|---|---|
| Js.OrIndex | index.js:131 | the operand a chain of JavaScript `or` operators yields: every operand before it is falsy, and it is truthy unless it is the last |
| Js.TrimShape | index.js:42 | `trim()` removes a white-space prefix and suffix and leaves text that neither starts nor ends with white space |
| Js.TrimEmptyIff | index.js:42 | `v.trim()` is empty iff every character of `v` is white space |
| Js.Utf16LengthAppend | index.js:86-88 | `.length` of a concatenation is the sum of the lengths |
| Js.Utf16LengthBmp | index.js:86-88 | for text in the Basic Multilingual Plane (Hangul, ASCII), `.length` is the character count |
| Js.DecimalRoundTrip | index.js:92 | the decimal text interpolated for a count reads back as that count |
| Js.SplitJoin | index.js:66 | joining with a separator none of the parts contains is undone by splitting at it |
| Js.Or | index.js:131 | the value of an `or` chain, `vs[OrIndex(vs)]`; its contract is that of `Js.OrIndex` |
| Js.Trim | index.js:42 | `trim()`; its contract is stated by `Js.TrimShape` and `Js.TrimEmptyIff` |
| Js.Utf16Length | index.js:86-88 | `.length` in UTF-16 code units: at least the character count and at most twice it; see also `Js.Utf16LengthAppend` and `Js.Utf16LengthBmp` |
| Js.DecimalString | index.js:92 | the decimal text of a count: at least one character, all digits, no leading zero; `Js.DecimalRoundTrip` reads it back |
| Js.Join | index.js:66 | `join(sep)`; `Js.SplitJoin` states that splitting undoes it |
| Validation.Required | index.js:42 | `required`: a string whose `trim()` is not empty; `Validation.RequiredIff` characterises it |
| Validation.RequiredIff | index.js:42 | `required(v)` iff `v` is a string with at least one non-white-space character; anything else fails |
| Validation.EveryRequired | index.js:55 | `every(required)` holds iff each element is required-valid |
| Validation.Validate | index.js:54-57 | the payload passes iff all four destructured fields (missing ones are `undefined`) pass `required`, and then carries exactly their strings |
| Validation.NumericMileageRejected | index.js:42 | a numeric `mileage` makes the payload invalid |
| PhoneNumbers.StripNonDigits | index.js:76-78 | the stripped number consists only of digits and is no longer than the input |
| PhoneNumbers.StripNonDigitsAppend | index.js:76-78 | stripping distributes over concatenation, so the digits keep their order |
| PhoneNumbers.StripNonDigitsAt | index.js:76-78 | each position keeps its character exactly when it is a digit, between what precedes and follows it |
| PhoneNumbers.StripNonDigitsFixedPoints | index.js:76-78 | stripping leaves a string unchanged iff it is all digits |
| PhoneNumbers.StripNonDigitsIdempotent | index.js:76-78 | stripping twice equals stripping once |
| PhoneNumbers.FilterNonEmpty | index.js:81 | `filter(Boolean)` keeps exactly the non-empty strings as members and never lengthens the list |
| PhoneNumbers.FilterNonEmptyAppend | index.js:81 | filtering a concatenation is the concatenation of the filtered parts, so order and multiplicity are kept |
| PhoneNumbers.FilterNonEmptySingleton | index.js:81 | a one-element list keeps its element exactly when it is not empty |
| PhoneNumbers.Recipients | index.js:81 | the list is `[manager, dealer]` with empty numbers removed: one entry per non-empty number, none empty, manager first and dealer last when present, `[manager, dealer]` when both are |
| Sms.PrimaryText | index.js:86 | the space-separated template; its length is given by `Sms.TemplateLength` |
| Sms.FallbackText | index.js:87 | the slash-separated template; `Sms.FallbackSameLength` states it is as long as the primary text |
| Sms.TooLongMessage | index.js:92 | the `sms_too_long` detail; `Sms.TooLongMessageReportsCount` states its shape and the count it carries |
| Sms.TemplateLength | index.js:86-87 | either template's length is the four fields' lengths plus 5 (three separators and "km") |
| Sms.FallbackSameLength | index.js:86-88 | the slash fallback always has the primary text's length |
| Sms.SamplePrimaryLength | index.js:86 | the sample submission's primary text is 30 units long |
| Sms.TooLongMessageReportsCount | index.js:88-93 | the `sms_too_long` detail is the fixed prefix and suffix around only digits, with no leading zero, that denote the length |
| Sms.Messages | index.js:104 | one message per recipient, in order, each `{to: recipient, from, text, type: "SMS"}` |
| Sms.SmsRequestFor | index.js:101-117 | the request goes to the send-many URL with the signed header, JSON content type, 10000 ms timeout, IPv4 agent and one message per recipient |
| Mail.MailFor | index.js:60-73 | the mail options; `Mail.MailAddressAndSubject` and `Mail.MailBodyLines` state the recipient, subject and body |
| Mail.MailAddressAndSubject | index.js:60-73 | the mail goes to `ADMIN_EMAIL` and its subject ends with the car number |
| Mail.MailBodyLines | index.js:61-66 | when no field holds a line break, the mail text is exactly the four labelled lines |
| Signer.CreateAuthHeader | index.js:35-40 | signing fails iff the HMAC of `date + salt` under the secret throws, with that error; otherwise the header parses back to apiKey, date, salt and signature in that order |
| Signer.AuthHeader | index.js:39 | the header template; `Signer.ParseAuthHeaderRoundTrip` states that it keeps all four fields in order |
| Signer.ParseAuthHeaderRoundTrip | index.js:39 | the header format loses no field: parsing a header built from comma-free date, salt and signature returns them |
| Handler.WireNamesDistinct | index.js:56-135 | the `error` strings `invalid_payload`, `send_failed`, `no_sms_recipients`, `sms_too_long` and `sms_failed` are distinct, one per tag |
| Handler.MissingSenderDetail | index.js:80 | the missing-sender error reaches the client as its own message |
| Handler.CatchAllDetail | index.js:130-137 | the catch-all detail is the first truthy of `response.data`, `data` and `message`, else the error itself; strings are kept and anything else is serialised |
| Handler.SenderNumber | index.js:76 | `SMS_SENDER` (empty when unset) with its non-digits removed; the `PhoneNumbers.StripNonDigits` lemmas apply |
| Handler.RecipientNumbers | index.js:77-81 | the stripped manager and dealer numbers under `PhoneNumbers.Recipients` |
| Handler.SmsFailureDetail | index.js:127 | the 502 detail; `HandlerProperties.SmsFailureDetailCases` states its three cases |
| Handler.Expected | index.js:52-139 | the gate sequence on the validated payload; `Handler.HandleSend` is proved equal to it and the `HandlerProperties` lemmas state its promises |
| Handler.HandleSend | index.js:52-139 | the handler's response and its ordered outbound calls are those of the gate sequence, on the validated payload |
| HandlerProperties.PayloadGate | index.js:54-57 | a rejected payload, and only a rejected one, gets 400 `invalid_payload`, and makes no outbound call |
| HandlerProperties.InvalidFieldMakesNoCalls | index.js:42-57 | a missing, non-string, or blank field gives 400 `invalid_payload` with neither mail nor SMS |
| HandlerProperties.MailComesFirst | index.js:68-73 | the mail is always the first call; a failed mail ends with 500 `send_failed` and no SMS |
| HandlerProperties.SmsConfigurationGates | index.js:76-84 | after the mail: an empty stripped sender gives 500 `send_failed` with the missing-sender message; no recipients gives 400 `no_sms_recipients`; neither makes an SMS call |
| HandlerProperties.TooLongGate | index.js:86-94 | `sms_too_long` iff the primary text is over 45 units; its detail reports that length and no SMS is sent |
| HandlerProperties.SmsCallGate | index.js:97-129 | a throwing signer gives 500; otherwise exactly one SMS call follows the mail, delivered gives 200 with the provider's data, and rejected gives 502 `sms_failed` |
| HandlerProperties.SmsFailureDetailCases | index.js:121-128 | the 502 detail is the provider's string data as is, other truthy data serialised, or else the error message |
| HandlerProperties.CallOrderAndStatus | index.js:52-139 | at most two calls, an SMS call only as the second; status in {200, 400, 500, 502}; 200 only on success, and only after an SMS call |
| HandlerProperties.SentMessagesFit | index.js:86-105 | every message actually sent goes to its recipient in order, from the sender, with the primary text of at most 45 units |
| HandlerProperties.SampleSubmissionIsSent | index.js:52-119 | the sample submission, with working mail, configured numbers, a signed header and an accepting provider, gives 200 after one mail and one SMS sized to the recipients |

## Left out

- Network I/O is not modelled. This covers the nodemailer transport, the startup `transporter.verify` probe, the axios call, the keep-alive IPv4 agent and the timeout. The mail and SMS calls are functions from request to outcome; the timeout and the address family appear only as fields of the request.
- The Express app, CORS, JSON body parsing, the request-logging middleware, all `console` output, and the start-up guard with its masked environment dump are framework plumbing and logging, so they are not modelled.
- `new Date().toISOString()`, `crypto.randomBytes` and HMAC-SHA256 are not computed. They are inputs to the model: a time string, a salt string and an HMAC function that may throw.
- `JSON.stringify` of a non-string detail is kept symbolic (`Json(v)`), not serialised.
- JavaScript values are modelled only as far as the handler observes them. Arrays and objects are an opaque `Composite`. NaN is not modelled, though it is falsy in JavaScript. Lone surrogates are not modelled: `string` holds Unicode scalar values.
- The mail transport's and the SMS provider's own behaviour (retries, partial delivery) is not modelled. Only the outcome the handler sees is.
- The `res.json` envelope is modelled by its content, without the literal `ok` flag. `Sent` stands for `ok: true` and `Failed` for `ok: false`.
- `Signer.CreateAuthHeader`: the header round trip is stated only when date, salt and signature contain no comma. An ISO-8601 time and hex strings never do.
- `Mail.MailBodyLines`: the line split is stated only when no field holds a line break. A field containing one makes the mail text read as more than four lines.
- `eslint.config.js` is lint configuration with no behaviour, so it is not modelled.
