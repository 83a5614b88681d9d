# APN adapter of node-pushnotifications, modelled in Dafny

`src/sendAPN.js` is the Apple Push Notification adapter of
node-pushnotifications. It wraps the `node-apn-http2` client library. The
adapter does three things itself, and this project models those three:

- **Notification encoder** (`encoder.dfy`, module `Encoder`). It turns the
  caller's `data` record into the fields of the wire notification. This
  covers the `||` defaulting chains for retries, expiry, alert, loc-args,
  category and mutable content. It maps the priority `"normal"` to 5 and
  every other value to 10. It computes the default expiry from a numeric
  time to live or from 28 days. It copies the remaining fields and renames
  `collapseKey` to `collapseId`. `Encode` is a pure function of `data` and
  the current time `now`, in seconds.
- **Response reducer** (`reducer.dfy`, module `Reducer`). This is the
  `.then` callback, which folds the library's `sent` and `failed` lists
  into `{method: "apn", success, failure, message}`. `Summarize` is its
  specification, and its properties are proved as lemmas. `Resume` is the
  adapter's two counting-and-pushing loops, proved equal to `Summarize`.
  Each failure is classified as transport-level (a truthy `error`) or
  protocol-level (`reason`, then `status`, then the raw response body).
- **Connection state** (`apn.dfy`, module `Apn`). The class `APN` holds
  `connection` and `connectionError`. Its constructor never throws: a
  provider that could not be created leaves `connection` null and the
  thrown value stored. `Shutdown` forwards only when a connection exists.
  `SendAPN` rejects without a connection, with the stored error when it is
  truthy and with `Error('Unkown error: APN connection not configured
  properly')` otherwise (the misspelling is the adapter's).

`js.dfy` (module `Js`) holds the JavaScript semantics these rely on:
truthiness, `a || b`, `new Error(m)` and property reads. A property read
throws a TypeError on `null` and `undefined`. `wrappers.dfy` holds `Option`
and `Result`.

The library is a collaborator whose code is not part of this model. The
class `Apn.Provider` stands for its provider object and only records the
`send` and `shutdown` calls it receives. The outcome of creating the
provider is an input of the `APN` constructor. How the provider's `send`
promise settles (a response or a rejection reason) is an input of
`SendAPN`. Promises are `Result` values.

Some points where a reader might expect otherwise, and what the code does:

- One might expect `success + failure` to equal the number of `regIds`
  passed in. It equals the number of items the library reports in `sent`
  and `failed`.
- One might expect the detail entries in no particular order, or in the
  order of `regIds`. They come in a fixed order: every sent token, then
  every failure, each in the library's order.
- One might expect the synthesized alert to leave out the keys whose field
  is not given. It keeps all eight keys, including those whose value is
  `undefined`.
- One might expect a second `shutdown` to do nothing. The adapter forwards
  to the provider on every call; any idempotence is the library's.
- One might expect every failure to become a detail entry. A failure that
  has neither a truthy `error` nor a `response` makes
  `failure.response.reason` throw. The promise returned by `sendAPN` then
  rejects with that TypeError instead of resolving with a summary
  (`Reducer.SummaryRejection`).

## Model

| member | source | states |
|---|---|---|
| `Js.Or` | src/sendAPN.js:25-49 | `a \|\| b` is truthy exactly when either operand is; it is `a` when `a` is truthy and `b` otherwise |
| `Js.NewError` | src/sendAPN.js:87 | `new Error(m)` is a truthy Error object whose message is `m` |
| `Js.ReadError` | src/sendAPN.js:86-89 | reading a property of null or undefined throws a truthy TypeError |
| `Js.Get` | src/sendAPN.js:79-89 | a property read fails exactly on null and undefined, with a TypeError; on an object it yields the property or undefined; on an Error it yields its message or name; on any other value it yields undefined |
| `Encoder.DefaultExpiry` | src/sendAPN.js:4 | the default expiry is `now` plus the time to live when that is a number, and `now + 2419200` (28 days) otherwise |
| `Encoder.SynthesizedAlert` | src/sendAPN.js:31-41 | the built alert is an object with exactly the keys title, body, title-loc-key, title-loc-args, loc-key, loc-args, launch-image and action |
| `Encoder.Encode` | src/sendAPN.js:23-50 | every encoded notification has priority 5 or 10, a truthy payload, a truthy retry limit and a truthy alert; mutable content is the given value or 0 |
| `Encoder.PriorityMapping` | src/sendAPN.js:27 | priority is 5 exactly when `data.priority` is the string "normal", and 10 exactly otherwise, absent included |
| `Encoder.ExpiryRule` | src/sendAPN.js:26 | a truthy expiry is kept; otherwise expiry is `now + timeToLive` for a numeric time to live (0 included), else `now + 2419200` |
| `Encoder.NowOnlyAffectsExpiry` | src/sendAPN.js:4 | encodings at two times differ at most in expiry, not at all when a truthy expiry is given, and otherwise by exactly the elapsed time |
| `Encoder.Defaults` | src/sendAPN.js:25-49 | retry limit is a truthy `retries`, else -1 (explicit 0 included); mutable content is a truthy value, else 0; category is a truthy `category`, else `clickAction` |
| `Encoder.AlertGivenVerbatim` | src/sendAPN.js:31 | a truthy `data.alert` is the alert, and two records with the same truthy alert encode the same alert whatever their title, body and loc fields |
| `Encoder.AlertSynthesized` | src/sendAPN.js:31-41 | without a truthy alert, the alert has the eight keys each copied from its field, and loc-args is a truthy `locArgs`, else `bodyLocArgs` |
| `Encoder.CopiedFields` | src/sendAPN.js:23-50 | encoding, badge, sound, topic, contentAvailable, mdm, urlArgs, truncateAtWordEnd and threadId pass through; `collapseKey` becomes `collapseId`; a falsy `custom` becomes `{}` |
| `Reducer.SentEntries` | src/sendAPN.js:64-70 | each sent token gives, in order, one entry with that token as regId, a null error and no errorMsg |
| `Reducer.FailedEntry` | src/sendAPN.js:74-91 | a failure's entry fails exactly when it has no truthy error and a nullish response, with the TypeError of reading `reason`; a built entry has the device as regId, an errorMsg and a non-null error |
| `Reducer.FailedEntries` | src/sendAPN.js:71-92 | failures processed in order give one entry each, exactly when every failure is readable, entry j being failure j's entry |
| `Reducer.FailedEntriesStopsAt` | src/sendAPN.js:71-92 | the first unreadable failure decides the rejection, whatever follows it |
| `Reducer.Summarize` | src/sendAPN.js:57-95 | the reducer's resolved summary or rejection, the definition the `Summary*` lemmas are about; it resolves exactly when every failure is readable, and then success + failure is the number of entries |
| `Reducer.Resume` | src/sendAPN.js:57-95 | the two loops that count and push produce exactly the specified summary or rejection |
| `Reducer.SummaryCounts` | src/sendAPN.js:58-73 | a summary has method "apn", success = number of sent tokens (0 if absent), failure = number of failures (0 if absent), and success + failure entries |
| `Reducer.SummaryOrder` | src/sendAPN.js:64-92 | entries are the sent tokens in order with null error, then the failures in order, each classified and with regId = device |
| `Reducer.SummaryRegIds` | src/sendAPN.js:64-92 | the regIds of the entries are exactly the sent tokens followed by the failed devices: none dropped, duplicated or reordered |
| `Reducer.SummaryNullErrorIffSent` | src/sendAPN.js:66-90 | an entry's error is null, and equally it has no errorMsg, exactly when it is one of the first `success` entries |
| `Reducer.SummaryRejection` | src/sendAPN.js:86-89 | the reducer rejects exactly when some failure has no truthy error and no response, and then with the TypeError of the first such failure |
| `Reducer.TransportClassification` | src/sendAPN.js:74-80 | a truthy `failure.error` is kept as the error, errorMsg is its truthy `message`, else the error itself, and errorMsg is truthy |
| `Reducer.ProtocolClassification` | src/sendAPN.js:81-90 | otherwise errorMsg is a truthy `response.reason`, else `status`; the error is an Error of that value when it is truthy and the raw response when not |
| `Reducer.ThreeTokenExample` | src/sendAPN.js:57-95 | one accepted token, one ECONNRESET transport error and one BadDeviceToken rejection give success 1, failure 2 and the three entries in that order |
| `Apn.NoConnectionReason` | src/sendAPN.js:53 | the rejection reason without a connection is always truthy: the stored error when truthy, else the generic "Unkown error" Error |
| `Apn.APN.constructor` | src/sendAPN.js:7-14 | the constructor always completes: with the provider and no stored error, or with a null connection and the thrown value stored |
| `Apn.APN.Shutdown` | src/sendAPN.js:16-20 | with a connection, the provider's shutdown is called once and nothing else changes; without one, nothing changes |
| `Apn.APN.SendAPN` | src/sendAPN.js:22-56 | without a connection it rejects with `NoConnectionReason` and touches nothing; with one, the provider gets exactly one send of `Encode(data, now)` to the regIds, and a rejection passes through while a response is summarised |

## Left out

- The `node-apn-http2` library: creating the provider, `apn.Notification` built from `data.custom`, and `send` and `shutdown`. These are foreign calls. `Apn.Provider` only records the calls, and their outcomes are inputs.
- HTTP/2 sessions, TLS and token authentication, retries, expiry enforcement and concurrent requests. They all happen inside the library.
- Promise mechanics. A settled promise is a `Result`, and the order in which callbacks run is not modelled.
- The clock. `now` is a parameter that stands for `Math.floor(Date.now() / 1000)`.
- Non-integer numbers. `timeToLive`, `expiry`, `badge` and `status` are integers or other JavaScript values; NaN, Infinity and fractions are not modelled. `typeof ttl === 'number'` is `ttl.Num?`.
- `new Error(x)` keeps `x` itself as its message. The conversion of `x` to a string is not modelled.
- A TypeError's message follows V8's wording; other engines word it differently.
- Property reads on truthy non-object values (numbers, strings, arrays, booleans) give `undefined`. Prototype properties are not modelled, and neither is object identity: objects compare structurally.
- A `data` argument that is itself null or undefined (which would throw synchronously), and a library response that is not an object: `data` is a record, and the response has an optional `sent` list and an optional `failed` list.
- Outside code reassigning `connection` or `connectionError`: no adapter method does, and `SendAPN` and `Shutdown` leave them unchanged.
