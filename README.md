# Charge handlers: a verified model

Two serverless handlers sit in front of a payment vendor's charges API.
`createCharge` checks a charge request, labels it with a pricing tier taken
from the uploaded file's size, builds the charge it sends to the vendor, and
maps the vendor's reply back to the caller. `chargeStatus` looks a charge up
and reduces its event timeline to one status name.

This project models each handler as a pure function of the request, the
environment and the vendor's reply. The reply is an input: the model does
not perform the HTTP call. A handler's answer is a `Response` value (status
code and JSON body, or no body).

- `js_values.dfy`: JSON values with `undefined`, JavaScript truthiness,
  property reads (which throw on null and undefined), the TypeErrors the
  handlers can raise, and the shared HTTP shapes (`Response`, `Env`,
  `VendorReply`).
- `js_strings.dfy`: `toLowerCase`, `String(v)`, `parseFloat` and object
  spread `{...v}`, as far as the handlers use them.
- `create_charge.dfy`: the tier table, the charge builder, the validation
  cascade and the reply mapping of `createCharge`.
- `charge_status.dfy`: the timeline reduction and the validation cascade
  of `chargeStatus`.

A `createCharge` request is split in two steps. `Prepare` either answers
early or yields the charge to send. `ReplyResponse` turns the vendor's
reply into the answer. `Handle` composes them.

Two behaviours of the code are easy to miss:
- A missing or non-numeric `fileSize` gives Tier 5, not Tier 1. `parseFloat`
  yields NaN, and every `<` comparison against NaN is false.
- `chargeStatus` checks `chargeId` before the API key.

## Model

| member | source | states |
|---|---|---|
| `CreateCharge.Classify` | api/createCharge.js:45-58 | the tier chain covers the byte ranges [0, 104857], [104858, 20971520), [20971520, 52428800), [52428800, 104857600) and [104857600, ∞), lower bound included; negative sizes are in the first range; NaN gives Tier 5 |
| `CreateCharge.ClassifyMonotone` | api/createCharge.js:48-58 | a larger byte count never gives a lower tier |
| `CreateCharge.NegativeSizeIsTier1` | api/createCharge.js:48-49 | a negative size is Tier 1 |
| `CreateCharge.NonNumericSizeIsTier5` | api/createCharge.js:46-57 | an absent, null, boolean or object file size reads as NaN and gives Tier 5 |
| `CreateCharge.Metadata` | api/createCharge.js:69-74 | the outgoing metadata has the caller's keys plus `file_size`, `tier` and `timestamp`; those three always hold the handler's values; every other caller key keeps its value; falsy caller metadata contributes nothing |
| `CreateCharge.BuildCharge` | api/createCharge.js:61-77 | given truthy amount, currency and name, the charge throws exactly when the currency is not a string; otherwise it has `pricing_type` `fixed_price`, name `Document Upload - <tier>`, the amount as a string, the currency lower-cased, the caller's description when truthy and the tier's default text otherwise, metadata exactly `Metadata` of the caller's metadata, the file size, the tier and the timestamp (so no other keys), and redirect and cancel URLs `<base URL>/upload?status=success` and `<base URL>/upload?status=canceled` |
| `CreateCharge.CallerMetadataKept` | api/createCharge.js:69-74 | a caller metadata key other than the three handler keys is in the charge with the caller's value |
| `CreateCharge.SmallUploadExample` | api/createCharge.js:61-74 | a 50000-byte upload of `10.00` `USD` gives local price `10.00` `usd` and tier `Tier 1 (<100KB)` |
| `CreateCharge.Prepare` | api/createCharge.js:14-77 | a charge is sent exactly when the method is POST, the API key is set, the body is truthy, amount, currency and name are truthy, and the charge builds; the charge sent is the one `BuildCharge` builds |
| `CreateCharge.InternalError` | api/createCharge.js:100-106 | a thrown error gives 500 with exactly `error` `Internal server error` and `message` the thrown error's message, which is never empty |
| `CreateCharge.ReplyResponse` | api/createCharge.js:91-99 | an ok reply gives 201 with the vendor body unchanged; a failed reply gives the vendor's status with `error.message` or `Failed to create charge`, and `details` set to the vendor's `error`; a null failed body throws |
| `CreateCharge.Handle` | api/createCharge.js:14-99 | OPTIONS gives 200 with no body before any other check; any other method but POST gives 405; on POST a missing API key gives 500 before a missing body (400) and missing fields (400 with the fixed `required` list); a non-string currency gives 500; otherwise the vendor reply decides; a 201 answer always carries the vendor body |
| `CreateCharge.EarlyAnswerIgnoresVendor` | api/createCharge.js:14-42 | a request answered before the vendor call gets the same answer whatever the vendor reply |
| `CreateCharge.MissingFieldListFixed` | api/createCharge.js:37-42 | any two bodies missing a required field get the same answer |
| `ChargeStatus.LatestStatus` | api/chargeStatus.js:26-27 | a non-empty timeline yields the `status` of its last event; an absent, falsy or empty timeline yields the record's own `status`; a missing record throws |
| `ChargeStatus.Timeline` | api/chargeStatus.js:26 | reading the timeline throws exactly when the charge record is null or undefined |
| `ChargeStatus.EarlierEventsIgnored` | api/chargeStatus.js:26-27 | two timelines with the same last event give the same status |
| `ChargeStatus.AppendedEventDecides` | api/chargeStatus.js:26-28 | appending an event with status `s` makes the status `s` |
| `ChargeStatus.Failure` | api/chargeStatus.js:29-31 | a thrown error gives 500 with `error` set to its message; the message is never empty, so the fallback text never appears |
| `ChargeStatus.Handle` | api/chargeStatus.js:5-28 | a missing chargeId gives 400 even without an API key; a missing key with a chargeId gives 500; a failed reply forwards the vendor status with its `error` or `Failed to get charge status`; a 200 answer is exactly `{statusName}` of the charge's latest status, and every readable ok reply gives 200 |
| `ChargeStatus.CompletedTimelineExample` | api/chargeStatus.js:26-28 | a timeline NEW then COMPLETED answers `{statusName: "COMPLETED"}` |
| `ChargeStatus.EmptyTimelineExample` | api/chargeStatus.js:26-28 | an empty timeline with status PENDING answers `{statusName: "PENDING"}` |
| `JsStrings.ToLowerCase` | api/createCharge.js:67 | lower-casing keeps the length, maps each upper-case letter to its lower-case letter, leaves every other character, and leaves no upper-case letter |
| `JsStrings.LowerCaseIdempotent` | api/createCharge.js:67 | lower-casing twice is lower-casing once |
| `JsStrings.LowerCaseOfLower` | api/createCharge.js:67 | a currency already in lower case is sent unchanged |
| `JsStrings.ParseFloatText` | api/createCharge.js:46 | a string reads as a number exactly when it is an integer literal |
| `JsStrings.NumberToStringRoundTrip` | api/createCharge.js:46 | the string `toString` gives for an integer reads back as that integer |
| `JsStrings.NumberToString` | api/createCharge.js:66 | an integer is written as decimal digits, after a minus sign when negative |
| `JsStrings.ToString` | api/createCharge.js:66 | a string amount is sent as it is; a number amount is sent as text that reads back as that number |
| `JsStrings.ParseFloat` | api/createCharge.js:46 | a number reads as itself; a string reads as `ParseFloatText` of its text; undefined, null, booleans and objects read as NaN |
| `JsStrings.IndexedKeys` | api/createCharge.js:70 | spreading an array gives exactly the keys `String(i)` for its indices `i` |
| `JsStrings.IndexedValues` | api/createCharge.js:70 | spreading an array copies element `i` under the key `String(i)` |
| `JsStrings.SpreadEntries` | api/createCharge.js:70 | spreading an object copies its entries; a string gives its characters by index; numbers, booleans, null and undefined give nothing |

## Left out

- The vendor HTTP calls, their headers, the API URL and the API version header. The vendor's reply is an input instead.
- CORS headers and the framework's `res.status(...).json(...)` calls. A handler returns a `Response` value instead.
- `new Date().toISOString()` is the input `now`. The public base URL is `Env.baseUrl`.
- Failures of the runtime itself: a network error, or a vendor body that is not JSON. Only TypeErrors caused by the request or the reply's content are modelled.
- The `stack` field that `createCharge` adds to its 500 answer when `NODE_ENV` is `development`.
- `console.error` logging.
- `JsValues.Value`: numbers are integers. Fractional JSON numbers and precision loss above 2^53 are not modelled.
- `JsStrings.ParseFloat`: a string is read as a number only when it is an integer literal. parseFloat also reads leading whitespace, fractions, exponents, `Infinity` and a numeric prefix followed by other text; here those strings read as NaN.
- `JsStrings.NumberToString`: integers of 10^21 and more are written as full digits. JavaScript writes them in exponent form, such as `1e+21`.
- `JsStrings.SpreadEntries`: a string is spread by Unicode character. JavaScript spreads it by UTF-16 code unit, so a character outside the Basic Multilingual Plane gives two keys there and one here.
- `JsStrings.ToLowerCase`: only ASCII letters are lower-cased. Other Unicode case mappings are not modelled.
- `JsValues.Prop`: only an object's own keys are read. Objects whose own keys shadow `toString` or `toLowerCase` are not modelled, so those calls never fail here.
- `ChargeStatus.LatestStatus`: an object timeline with its own `length` key is treated as having no events. JavaScript would index it like an array.
- Keys whose value is `undefined` are kept in the modelled JSON bodies. `JSON.stringify` drops them when the body is sent.
- `chargeStatus` answers any HTTP method. The code has no method check, so the model takes no method.
