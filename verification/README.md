# Payment webhook notifications, modelled in Dafny

The system receives payment callbacks from two gateways and turns them into
Telegram chat alerts.

* The **Mollie webhook** handles a European, mandate-based gateway.
  1. It receives a payment id and drops ids it has already seen since the last
     periodic clear.
  2. It fetches the payment and reads its fields, each with a fallback chain
     that ends in a default.
  3. It classifies the payment with a first-match-wins chain over status,
     sequence type and the body's resource/status.
  4. It sends at most one branch notification. A paid first payment with a
     positive recurring amount also creates a monthly subscription and sends a
     follow-up saying whether that worked.
* The **Razorpay webhook** handles an Indian subscription gateway.
  1. It accepts only POST.
  2. It reads the event name and the payment or subscription entity.
  3. For each of four events it fills a template. It passes the whole text
     through `escapeMarkdownV2` before sending it.

The model is pure functions over immutable records.

* JSON fields are `Js.Field = Option<string>`. `None` stands for missing,
  `undefined` or `null`.
* JavaScript's `||` treats `""`, `0`, `null` and a missing value as absent.
  `Js.OrChain` and `Js.OrDefault` model this.
* Gateway replies are inputs. `MollieWebhook.Reply` is either the parsed
  object or `Threw`.
* Gateway calls are recorded in `calls`.
* Messages handed to the Telegram helper are appended to an outbox:
  * For Mollie, each message is a kind tag plus the fields its template shows.
  * For Razorpay, each message is the full escaped text.
* The duplicate set is threaded through as a `set`. The timer becomes the
  explicit `Dedup.Clear`.

Source ordering matters in one place. In the Mollie handler, the
early-failure block (`api/mollie/webhook.js:43-47`) uses `email`, `name`,
`planType`, `currency` and `amount` before their `const` declarations
(lines 54-61) have run. In JavaScript that throws a ReferenceError. The
outer `catch` turns it into a 500, nothing is sent, and the id stays in the
duplicate set.

* `MollieWebhook.HandleWebhook` models this as written.
* `MollieWebhook.HandleWebhookCorrected` reads the fields first and sends the
  early-failure message. See Findings.

A consequence: as written, a failed or open payment that carries a failure
reason never reaches the classifier.

A fetched payment without an id gets 400 (`api/mollie/webhook.js:49-52`);
only a fetch that throws gives 500.

Only a `null` or `undefined` Mollie body makes `body.id` throw (500); a
string or number body reads every field as missing and is processed under
the key `undefined`. For Razorpay, `Unparseable` stands for a string body
that `JSON.parse` rejects or that parses to `null`, so that reading
`body.event` throws (500); every other body is read as `Parsed`.

Razorpay escapes the whole template text, not just the interpolated values.
So the template's own `*` markers reach the chat as `\*`. The model keeps
that.

Module layout:

* `js.dfy`: module `Js` (truthiness and `||` chains).
* `dedup.dfy`: module `Dedup`.
* `decimal.dfy`: module `Decimal` (`toFixed(2)`, and `parseFloat(x) > 0`).
* `text.dfy`: module `Text` (`includes`).
* `markdown.dfy`: module `MarkdownV2`.
* `mollie.dfy`: module `MollieWebhook`.
* `razorpay.dfy`: module `RazorpayWebhook`.

## Model

| member | source | states |
|---|---|---|
| Dedup.Receive | api/mollie/webhook.js:16-20 | an id already in the set is a duplicate and leaves the set unchanged; any other id is inserted and must be processed |
| Dedup.Clear | api/mollie/webhook.js:2-4 | after the timer's clear every id is received as new |
| Dedup.ReceiveTwice | api/mollie/webhook.js:16-20 | two receipts of one id with no clear between: process (if new), then duplicate |
| Dedup.ReceiveKeeps | api/mollie/webhook.js:16-20 | a receipt never removes another id from the set |
| Dedup.ReceiveAfterClear | api/mollie/webhook.js:2-20 | after a clear a previously seen id is processed again, and a repeat is a duplicate again |
| Js.OrChain | api/mollie/webhook.js:37-41 | `a \|\| b \|\| ... \|\| last` yields the first truthy candidate, or `last` itself when none is truthy |
| Js.OrDefaultSingle | api/mollie/webhook.js:55-62 | `v \|\| "default"` is the value when truthy, else the default |
| Js.OrDefault | api/mollie/webhook.js:54-62 | a chain ending in a literal default yields the first truthy candidate or the default, and is never empty when the default is not |
| MollieWebhook.PaymentKey | api/mollie/webhook.js:13 | the id is `body.id` when truthy, otherwise `body.paymentId` as it is |
| MollieWebhook.FailReason | api/mollie/webhook.js:37-41 | the reason is the first truthy of details.failureReason, failureReason, statusReason in that order, and null when none is; so it is present iff one of them is truthy |
| MollieWebhook.EarlyFailure | api/mollie/webhook.js:43 | definition, no contract: a truthy failure reason on a payment whose status is "open" or "failed" |
| MollieWebhook.EarlyFailureMessage | api/mollie/webhook.js:44-46 | definition, no contract: the early-failure alert with the reason, the payment id and the shown fields |
| MollieWebhook.ExtractFields | api/mollie/webhook.js:54-63 | each field's fallback order and default (N/A, Unknown, 0.00, EUR, unknown, DID Main Subscription, 0.00); shown fields are never empty; a subscription follows iff parseFloat(recurringAmount) > 0, never when the amount is absent |
| MollieWebhook.Classify | api/mollie/webhook.js:84-169 | decision table of the first-match chain: each branch is taken exactly under its condition, including "failed" with a non-recurring sequence split by "first", and cancellation only when no status branch claims the payment |
| MollieWebhook.Respond | api/mollie/webhook.js:84-171 | a classified payment yields at most one branch message plus the subscription follow-up, the only further gateway call is the subscription request, and the answer is 200 or 500 |
| MollieWebhook.SubscriptionRequest | api/mollie/webhook.js:93-108 | definition, no contract: POST to the customer's subscriptions with the recurring amount in EUR, interval "1 month", description "<plan> Subscription" and email, name and plan as metadata |
| MollieWebhook.AfterFetch | api/mollie/webhook.js:37-171 | after the fetch: as written an early failure gives 500 and nothing; corrected it sends the early-failure message first and does not give 500; otherwise a payment without id gives 400 and nothing, and one with an id gives a well-formed classified step |
| MollieWebhook.FailingStepSendsOne | api/mollie/webhook.js:130-150 | an open or failed payment gets exactly one branch message, no gateway call, and 200 |
| MollieWebhook.Handle | api/mollie/webhook.js:6-176 | shared skeleton of both handler variants: a null or undefined body gives 500, duplicates are quiet, a new id is recorded and fetched first, a thrown fetch gives 500, otherwise the post-fetch step decides |
| MollieWebhook.HandleWebhook | api/mollie/webhook.js:6-176 | the handler as written: duplicates give 200 "Duplicate ignored" with no fetch, no message and the set unchanged; a new id is inserted before the fetch; at most two messages, the second only as subscription follow-up; no early-failure message is ever sent |
| MollieWebhook.HandleWebhookCorrected | api/mollie/webhook.js:43-171 | with extraction moved first, an early-detected failure is reported as the first message, carrying the reason and fields, and the call then goes on as the code intends: 400 with only that message when the payment has no id, otherwise exactly the classified step after it |
| MollieWebhook.SecondDeliveryIgnored | api/mollie/webhook.js:16-20 | redelivering a body before a clear gives 200 "Duplicate ignored", no call, no message, set unchanged |
| MollieWebhook.ClearedIdProcessedAgain | api/mollie/webhook.js:2-20 | after a clear the same delivery is fetched and processed again |
| MollieWebhook.FetchFailureIsInternalError | api/mollie/webhook.js:32-35 | a payment fetch that throws gives 500 and no message, and the id remains recorded |
| MollieWebhook.EarlyFailureCrashes | api/mollie/webhook.js:43-61 | as written, a failure reason on an open or failed payment gives 500 with no message, and the retry is dropped as a duplicate |
| MollieWebhook.MissingPaymentIdRejected | api/mollie/webhook.js:49-52 | without an early failure, a payment with no id gives 400 and no message |
| MollieWebhook.ClassifiedOutcome | api/mollie/webhook.js:16-171 | past the gate, the call records the id, fetches, and then does exactly what the classified step does |
| MollieWebhook.ClassifiedStep | api/mollie/webhook.js:84-169 | the classified step's first message announces its branch; only the initial payment may call the gateway or send a second message |
| MollieWebhook.ClassifiedCallAnnouncesBranch | api/mollie/webhook.js:84-171 | the first message announces the branch taken; an unmatched status sends nothing and still answers 200; every branch except the initial payment sends exactly one message |
| MollieWebhook.FailedPaymentReportedOnce | api/mollie/webhook.js:129-143 | a failed payment reaching the classifier gets exactly one failure message: RENEWAL FAILED iff sequence is "recurring", otherwise INITIAL PAYMENT FAILED iff "first", else the unspecified heading |
| MollieWebhook.InitialStep | api/mollie/webhook.js:84-119 | the classified step of a paid first payment: success message, subscription request iff recurring, follow-up by the reply's id |
| MollieWebhook.InitialPaymentFlow | api/mollie/webhook.js:84-119 | paid+first always sends the success message; a subscription of the recurring amount in EUR, "1 month", is requested iff the amount is positive; the follow-up is STARTED iff the reply has an id; a non-positive amount answers 200 with no request |
| MollieWebhook.DefaultAmountNotPositive | api/mollie/webhook.js:62-63 | the default recurring amount "0.00" never starts a subscription |
| MollieWebhook.TwoDecimalRecurringAmount | api/mollie/webhook.js:62-63 | a recurring amount written with two decimals triggers a subscription iff its value is above zero |
| MollieWebhook.CorrectedAgreesElsewhere | api/mollie/webhook.js:43-52 | the corrected handler behaves exactly like the written one whenever the early-failure guard does not fire |
| MollieWebhook.ExampleFields | api/mollie/webhook.js:37-63 | a failed first payment with reason "insufficient_funds" and no metadata trips the guard and shows the defaults N/A, DID Main Subscription, EUR, 0.00 |
| MollieWebhook.EarlyFailureExample | api/mollie/webhook.js:43-47 | as written, that payment's delivery answers 500 and sends nothing |
| MollieWebhook.EarlyFailureExampleCorrected | api/mollie/webhook.js:43-62 | corrected, it answers 200 with the early-failure message and then INITIAL PAYMENT FAILED |
| Decimal.FormatHundredths | api/razorpay/webhook.js:70 | `(n / 100).toFixed(2)` has exactly two decimals, a minus sign iff n < 0, a whole part without leading zeros, and reads back as n |
| Decimal.FormatInteger | api/razorpay/webhook.js:111 | an integer in a template: optional minus, then digits without leading zeros that read back as the integer |
| Decimal.NatDigits | api/razorpay/webhook.js:111 | the digits of a natural number: non-empty, starting with 0 only for 0 itself |
| Decimal.CanonicalDigitsUnique | api/razorpay/webhook.js:70 | two numerals without leading zeros that denote the same number are equal, so the canonical output is the only one possible |
| Decimal.NatDigitsUnique | api/razorpay/webhook.js:111 | every numeral without leading zeros for n is the one produced for n |
| Decimal.ParsesPositive | api/mollie/webhook.js:63 | definition, no contract: `parseFloat(s) > 0` after leading white space, no minus sign, then Infinity or a mantissa with a non-zero digit |
| Decimal.FormattedPositive | api/mollie/webhook.js:63 | parseFloat of a two-decimal amount is positive iff the amount is |
| Text.ScanFindsOccurrence | api/razorpay/webhook.js:148-150 | the front-to-back scan of `includes` succeeds iff the pattern occurs at some position |
| Text.Includes | api/razorpay/webhook.js:148-150 | definition, no contract: `s.includes(p)` as an occurrence of p at some position of s |
| Text.IncludedCharacters | api/razorpay/webhook.js:148-150 | every character of an included pattern occurs in the text |
| MarkdownV2.Escape | api/razorpay/webhook.js:19-21 | the escaped text is as long as the input plus one per special character |
| MarkdownV2.IsSpecial | api/razorpay/webhook.js:20 | definition, no contract: the 19 characters of the escape class: underscore, asterisk, both brackets, both parentheses, tilde, backtick, `>`, `#`, `+`, `-`, `=`, vertical bar, both braces, dot, exclamation mark and backslash |
| MarkdownV2.UnescapeEscape | api/razorpay/webhook.js:20 | removing each escaping backslash gives back the input |
| MarkdownV2.EscapeInjective | api/razorpay/webhook.js:20 | distinct texts never escape to the same message |
| MarkdownV2.EscapeIdentity | api/razorpay/webhook.js:20 | a text is returned unchanged iff it has none of the special characters |
| MarkdownV2.EscapeAppend | api/razorpay/webhook.js:20 | escaping works character by character, so it distributes over concatenation |
| MarkdownV2.EscapedSpecialsArePaired | api/razorpay/webhook.js:20 | each special character lands right after its own backslash, every other character lands unchanged |
| RazorpayWebhook.ExtractEmail | api/razorpay/webhook.js:45-55 | the first truthy of email, customer_email, customer_details.email, notes.email, contact_email, customer_notify_email, else "N/A" |
| RazorpayWebhook.ExtractPhone | api/razorpay/webhook.js:57-66 | the first truthy of contact, customer_contact, customer_details.contact, notes.phone, phone, else "N/A" |
| RazorpayWebhook.FormatAmount | api/razorpay/webhook.js:70 | the paise amount shown with two decimals, a minus sign iff negative and no leading zeros, reading back as the same count; an undefined amount shows NaN |
| RazorpayWebhook.CurrencyOf | api/razorpay/webhook.js:71 | currency, defaulting to INR |
| RazorpayWebhook.Product | api/razorpay/webhook.js:74-78 | notes.product, then notes.plan_name, then notes.subscription_name, else the button label |
| RazorpayWebhook.PlanName | api/razorpay/webhook.js:95-98 | notes.product, then plan_id, else the event's default label |
| RazorpayWebhook.CycleCount | api/razorpay/webhook.js:100 | a missing or zero total_count shows "∞", any other its digits without leading zeros (after a minus sign when negative) |
| RazorpayWebhook.NoLetterPNoRebillFailure | api/razorpay/webhook.js:148-150 | a reason without the letter p never selects the rebill-failure heading |
| RazorpayWebhook.FailedRebill | api/razorpay/webhook.js:148-150 | definition, no contract: the reason includes "multiple failed rebill" or "failed payment" |
| RazorpayWebhook.FailedRebillByScan | api/razorpay/webhook.js:148-150 | the heading test agrees with the front-to-back search that `includes` performs |
| RazorpayWebhook.DefaultReasonIsPlainCancellation | api/razorpay/webhook.js:145-150 | the default cancellation reason contains neither phrase, so it gives the plain heading |
| RazorpayWebhook.PaymentFailedMessage | api/razorpay/webhook.js:121 | the failure reason shown is error_description when truthy, else "Unknown reason" |
| RazorpayWebhook.CancelledMessage | api/razorpay/webhook.js:145-150 | the reason is cancel_reason or the default; the rebill-failure heading is chosen iff the reason contains "multiple failed rebill" or "failed payment", never for a missing reason |
| RazorpayWebhook.Outgoing | api/razorpay/webhook.js:80-89 | the sent text un-escapes to the template text and is longer by the number of special characters |
| RazorpayWebhook.TemplateText | api/razorpay/webhook.js:80-164 | definition, no contract: the four template texts, with their leading and trailing line breaks |
| RazorpayWebhook.CapturedMessage | api/razorpay/webhook.js:69-78 | definition, no contract: the captured template's fields from the payment |
| RazorpayWebhook.RenewalMessage | api/razorpay/webhook.js:95-102 | definition, no contract: the renewal template's fields from the subscription |
| RazorpayWebhook.EventNamesDistinct | api/razorpay/webhook.js:69-139 | the four event names are pairwise distinct, so at most one `if` fires |
| RazorpayWebhook.OneOfFour | api/razorpay/webhook.js:69-167 | four `if`s of which at most one fires append just that one message |
| RazorpayWebhook.Selected | api/razorpay/webhook.js:69-167 | a message is called for iff the event is one of the four names and its entity is present |
| RazorpayWebhook.Fires | api/razorpay/webhook.js:69-167 | the messages the four `if`s append: at most one, present exactly when an event is selected, and it is that event's message |
| RazorpayWebhook.Notifications | api/razorpay/webhook.js:68-167 | the four separate ifs send at most one message, exactly when an event is selected, and it is that event's escaped message |
| RazorpayWebhook.HandleWebhook | api/razorpay/webhook.js:2-174 | non-POST answers 405 and sends nothing; an unparseable body answers 500 and sends nothing; any parsed body answers 200 and sends exactly the selected event's escaped message, or nothing |
| RazorpayWebhook.PostedSelection | api/razorpay/webhook.js:7-169 | a parsed POST answers 200 and sends exactly the selected event's escaped message, or nothing |
| RazorpayWebhook.UnknownEventAcknowledged | api/razorpay/webhook.js:169 | an unknown event answers 200 and sends nothing |
| RazorpayWebhook.MissingEntitySendsNothing | api/razorpay/webhook.js:69 | a payment event without a payment entity sends nothing |
| RazorpayWebhook.CapturedPaymentMessage | api/razorpay/webhook.js:69-91 | a captured payment sends exactly the escaped captured template filled from the payment |
| RazorpayWebhook.ChargedSubscriptionMessage | api/razorpay/webhook.js:94-115 | a charged subscription sends exactly the escaped renewal template with notes.product, plan_id or "Razorpay Subscription Plan", the contacts, the id and the cycle count |
| RazorpayWebhook.FailedPaymentReport | api/razorpay/webhook.js:118-136 | a failed payment sends exactly the escaped failure template, with error_description or "Unknown reason" |
| RazorpayWebhook.CancellationWithoutReason | api/razorpay/webhook.js:139-167 | a cancellation without cancel_reason sends the plain-heading message with the default reason |

## Left out

- Network and chat I/O. The gateway `fetch` calls and the Telegram send are not modelled. Their results are inputs. A message counts as sent once it is handed to the send helper: the helper's silent return when the bot token or chat id is unset is not modelled, nor are swallowed delivery failures.
- Timing. The 60-second `setInterval` clear is the explicit `Dedup.Clear`. The 8-second wait before the subscription request is only a sequencing step.
- Concurrency. Overlapping invocations sharing the duplicate set are not modelled.
- The CET time stamp from `toLocaleString`. It is an opaque `time` input carried by each Mollie message.
- `JSON.parse` of a string body (Razorpay). The body arrives parsed or as `Unparseable`; the latter also covers a string that parses to `null`. A missing body reads as `{}`.
- JSON values of unexpected type. All fields are typed: a non-string `cancel_reason` that would make `includes` throw is not modelled, nor is a non-numeric `amount`. A gateway reply that is JSON `false`, `0` or `""` is not modelled either; it would reach the 400 path.
- `null` and `undefined` are conflated as `None`. A template shows both as "undefined", where JavaScript would show "null" for the first. The duplicate set also treats them as one key, and a `null` Razorpay amount shows "NaN" (see RazorpayWebhook.FormatAmount below).
- The exact emoji/Markdown text of the Mollie templates. Each message is a kind tag with the fields its template shows. The Razorpay templates are given in full because escaping applies to their whole text.
- Console logging.
- Decimal.ParsesPositive: treats every mantissa with a non-zero digit as positive. `parseFloat` rounds values below the smallest double (for example "1e-400") to 0.
- Decimal.FormatHundredths: exact only while |n| is below 2^46 · 100 (about 7.0 · 10^15 paise). JavaScript first rounds n / 100 to a double. Once |n / 100| reaches 2^46, the spacing of doubles is 1/64, which is more than 0.01, so `toFixed(2)` can show a neighbouring hundredth: 7142106568342468 gives "71421065683424.69" in JavaScript and "71421065683424.68" here. Below that bound, the double lies within 1/256 of n / 100, so the nearest hundredth is n / 100 itself. The exponent notation `toFixed` uses for values of 1e21 and above is not modelled either.
- Decimal.FormatInteger: `${n}` prints a JavaScript number, while the model prints the exact digits. A JSON integer above 2^53 in magnitude arrives already rounded to a double, so 9007199254740993 shows as "9007199254740992". From 1e21 on, JavaScript uses exponent form ("1e+21").
- RazorpayWebhook.CycleCount: inherits the limits of Decimal.FormatInteger. A total_count above 2^53 shows its double rounding, and one of 1e21 or more shows in exponent form, neither of which the model reproduces.
- RazorpayWebhook.FormatAmount: a `null` amount converts to 0, so JavaScript shows "0.00". The model conflates `null` with a missing amount and shows "NaN", which only an undefined amount gives. It also inherits the limits of Decimal.FormatHundredths: amounts of 2^46 · 100 paise or more may show a neighbouring hundredth, and exponent notation from 1e23 paise is not modelled.
- The three checkout initiators (`api/mollie/create-initial-payment.js`, `api/mollie/create-subscription.js`, `api/razorpay/create-subscription.js`). Each is a required-field guard around gateway calls.
- The front-end script `assets/js/script.js`. It is DOM event handling.

## Findings

| source | as written | input that shows it | evidently intended | confidence | as-written member | corrected member |
|---|---|---|---|---|---|---|
| api/mollie/webhook.js:43-61 | the early-failure message reads `email`, `name`, `planType`, `currency`, `amount` before their `const` declarations, so it throws: 500, no message, id kept in the duplicate set | a new id whose payment has status "failed", sequenceType "first" and details.failureReason "insufficient_funds" | read the fields first, send the early-failure message, then classify as usual | high (not executed) | MollieWebhook.EarlyFailureCrashes | MollieWebhook.HandleWebhookCorrected |
