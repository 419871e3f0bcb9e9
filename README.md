# Upload orchestration of the dashboard actions, modelled in Dafny

This project models the decision logic of the three-phase upload in
`app/dashboard/actions.ts`. It covers the three server actions that carry
control flow:

- `tryEndpoints`: the ordered endpoint scanner.
- `prepareZepetoUpload`: session and account gating, login, scan and result shaping.
- `finalizeZepetoUpload`: link, one fallback create, build, then item creation.

No request is performed. Every HTTP exchange is an input value (`Exchange.Reply`):

- `Threw(message)`: `fetch` itself rejected.
- `Answer(status, body)`: a response arrived. Its body says what `res.text()` and `res.json()` would
  resolve to, or the message each would reject with.

Each action also returns the list of requests it made (`seq<Call>`). The list records each scan request's URL and `Authorization` value, and the asset id used by the build and item requests. Properties
such as "no login happened", "create was called exactly once" and "neither build
nor item was requested" are stated about that list.

Modules:

- `Wrappers`: `Option` and `Result`.
- `Js`: the JavaScript semantics the actions rely on:
  - parsed JSON values;
  - property reads that throw a TypeError on `null`, with V8's message;
  - truthiness and `||`;
  - template-literal conversion;
  - `JSON.stringify`;
  - decimal rendering of status codes.
- `Exchange`: replies, `Response.ok` (status 200–299) and the request trace.
- `Scanner`: `tryEndpoints` as a loop method over a list of replies. It is proved against a reference definition:
  - the first accepted reply, by a forward search;
  - the latest rejection text, by a backward search.
- `Categories`: the five-entry category table.
- `Prepare`: `prepareZepetoUpload`.
- `Finalize`: `finalizeZepetoUpload`.

Three behaviours of the code that are easy to misread:

- When every endpoint fails, the error carries only the last `[status] text`, not an endpoint identifier.
- The scan result's `uploadUrl` is read at the top level; a body wrapped in a `result` envelope is not unwrapped.
- A `fetch` of the build step that rejects is fatal, because it sits inside the action's `try`. Only the build *answer* is ignored.

## Model

| member | source | states |
|---|---|---|
| `Js.GetProp` | app/dashboard/actions.ts:153 | reading a field of a parsed body throws exactly when the body is `null`, with V8's "Cannot read properties of null (reading '…')" message; a defined result implies an object |
| `Js.Lookup` | app/dashboard/actions.ts:185 | a property is defined exactly when the object has a member of that name, and then it is that member's value; with distinct keys, as every parsed object has, it is the value of every member so named |
| `Js.Or` | app/dashboard/actions.ts:185 | `a \|\| b` yields `a` when it is truthy and `b` otherwise; the result is truthy iff either operand is |
| `Js.NatToStringRoundTrip` | app/dashboard/actions.ts:121 | the decimal rendering of a status code is a non-empty string of digits that starts with `0` only for zero and reads back as the same number |
| `Js.ToString` | app/dashboard/actions.ts:153 | template-literal conversion throws "Cannot convert object to primitive value" exactly for an object with an own `toString` member or an array holding one. Otherwise it gives `undefined` for a missing property, `null` for null, the text itself for a string, the decimal rendering for a number and `[object Object]` for an object |
| `Js.Stringify` | app/dashboard/actions.ts:179 | `JSON.stringify` writes a string as the escaped text between double quotes, an array between `[` and `]` and an object between `{` and `}` |
| `Js.EscapeKeepsPlainText` | app/dashboard/actions.ts:179 | escaping a JSON string changes nothing when the text contains no control character, `"` or `\` |
| `Js.EscapeHasNoControlCharacters` | app/dashboard/actions.ts:179 | escaped JSON text contains no control character |
| `Scanner.Prefix` | app/dashboard/actions.ts:121 | `substring(0, n)` yields the first `min(n, length)` characters of the text |
| `Scanner.ErrorText` | app/dashboard/actions.ts:121 | a recorded error text is never empty and starts with `[`, so the `\|\| 'Timeout/Unknown'` fallback never replaces a recorded error |
| `Scanner.ErrorTextShape` | app/dashboard/actions.ts:121 | the recorded text is `[status] ` followed by a prefix of the body of at most 100 characters, the whole body when it is that short |
| `Scanner.FirstAccepted` | app/dashboard/actions.ts:106-118 | the index it returns is accepted (2xx with a parsable body) and no earlier reply is, or no reply is accepted at all |
| `Scanner.TryEndpoints` | app/dashboard/actions.ts:96-128 | endpoints are requested strictly in list order, with the given token; the first 2xx reply with a JSON body is returned and nothing after it is requested; otherwise every endpoint is requested and the thrown message is the exhaustion message built from the latest rejection |
| `Scanner.ScanDeterminedByFirstAccepted` | app/dashboard/actions.ts:106-127 | any outcome and request count meeting the scanner's contract are exactly the reference outcome and count, so the contract determines the scan |
| `Scanner.LastErrorIsLatestRejection` | app/dashboard/actions.ts:120-125 | `lastError` is unset exactly when no reply was a readable non-2xx answer; otherwise it is the text of such a reply after which no other was rejected |
| `Scanner.ExceptionKeepsLastError` | app/dashboard/actions.ts:123-125 | a request that throws, a 2xx body that fails to parse, or an error body that cannot be read leaves `lastError` unchanged |
| `Scanner.RejectionSetsLastError` | app/dashboard/actions.ts:120-121 | a readable non-2xx answer overrides `lastError` with `[status] ` and the first 100 characters of its body |
| `Scanner.ExhaustedMessageCases` | app/dashboard/actions.ts:127 | the exhaustion message is `Semua endpoint gagal. Last error: ` followed by the latest rejection text, or by `Timeout/Unknown` when nothing was rejected; an empty list gives the latter |
| `Scanner.LaterCandidatesUntouched` | app/dashboard/actions.ts:115-118 | once some reply is accepted, the scan succeeds and requests no endpoint after it |
| `Scanner.SecondCandidateAfterNotFound` | app/dashboard/actions.ts:106-122 | a 404 from the first endpoint followed by a 2xx JSON answer from the second returns the second body after exactly two requests |
| `Categories.CategoryId` | app/dashboard/actions.ts:187 | a key has an identifier exactly when it is one of `hair`, `top`, `bottom`, `dress`, `shoes`, and that identifier is non-empty |
| `Categories.CategoryTableEntries` | app/dashboard/actions.ts:187 | each of the five keys maps to its fixed identifier |
| `Categories.CategoryIdInjective` | app/dashboard/actions.ts:187 | no two keys share an identifier |
| `Categories.IndexLiteral` | app/dashboard/actions.ts:187 | indexing the literal as written gives an own identifier exactly for the table keys, an inherited member exactly for the names of `Object.prototype` members outside the table, and `undefined` otherwise |
| `Categories.InheritedKeyIsNotUndefined` | app/dashboard/actions.ts:187 | the key `constructor` is not in the table, yet indexing the literal with it does not give `undefined` |
| `Categories.CorrectedAgreesOutsidePrototype` | app/dashboard/actions.ts:187 | for every key that is not an `Object.prototype` member name, the literal and the corrected lookup agree |
| `Prepare.BearerToken` | app/dashboard/actions.ts:144-153 | a token exists exactly when login answered 2xx with a non-null JSON body whose `authToken` converts to a string. It is then `Bearer ` + `String(authToken)`. A non-2xx login fails with `Login gagal saat persiapan upload.`. A rejected `fetch`, or a 2xx body whose `json()` rejects, fails with that rejection's message. A 2xx body that parses to `null` fails with the TypeError "Cannot read properties of null (reading 'authToken')". An `authToken` with an own `toString` member fails with "Cannot convert object to primitive value" |
| `Prepare.ShapeResult` | app/dashboard/actions.ts:178-188 | success exactly when the scan body is an object with a truthy `uploadUrl`. Then `fileId` is `fileId`, or `id` when `fileId` is falsy, the token is passed through and the category comes from the table. Otherwise the failure is the stringified body after the fixed text, or a TypeError for `null`. The category comes from the corrected lookup (see Findings) |
| `Prepare.EnvelopeIsNotUnwrapped` | app/dashboard/actions.ts:178-180 | a body whose only member is `result` fails with the "no uploadUrl" message |
| `Prepare.TokenWithOwnToStringThrows` | app/dashboard/actions.ts:153 | a 2xx login whose `authToken` is an object with an own `toString` member fails with "Cannot convert object to primitive value" |
| `Prepare.PrepareUpload` | app/dashboard/actions.ts:131-194 | without a session user, or without a `CONNECTED` account, it fails with the fixed message and makes no request. A login failure stops after the login request. Otherwise every scan request carries the bearer token, the scan runs over the four fixed candidates, and the result is the shaped scan body or the scan's error. A success returns the token used for the scan |
| `Finalize.AssetIdOf` | app/dashboard/actions.ts:215-217 | the asset id of a 2xx answer is the body's `id` member, and `undefined` when the body is a string, number, boolean or array. An unparsable body fails with the parse message, and a `null` body with a TypeError |
| `Finalize.ResolveAsset` | app/dashboard/actions.ts:201-237 | a 2xx link gives the link answer's asset id. A refused link followed by a 2xx create gives the create answer's asset id. If both are refused the failure is `Gagal Linking Asset: ` + the link's error text. Rejected fetches and unreadable bodies fail with their own message. Any asset id comes from one of these two answers |
| `Finalize.CreateIgnoredUnlessRefused` | app/dashboard/actions.ts:215-218 | unless the link is refused with a readable body, the fallback reply has no effect on the asset step |
| `Finalize.LinkCalls` | app/dashboard/actions.ts:201-237 | the link step requests link alone, or link then create; create is requested exactly when the link is refused with a readable body |
| `Finalize.ItemOutcome` | app/dashboard/actions.ts:246-259 | success exactly on a 2xx item answer, with the fixed success message. Otherwise the message is `Gagal Create Item: ` + `String(message)` of the error body when that is truthy, or `Unknown` when it is missing, falsy, the body is not an object or does not parse; a `null` error body, or a `message` whose conversion throws, gives that TypeError's message |
| `Finalize.FinalizeUpload` | app/dashboard/actions.ts:197-264 | link is always requested first and create at most once, exactly on a refused link. When both are refused the action fails with the link error and requests neither build nor item. A failed asset step requests nothing further. An asset id whose conversion into the build URL throws fails the action before the build request. The build answer never changes the outcome; only a rejected build fetch stops the action. Build and item use the resolved asset id. Success needs a resolved, convertible asset id, an answered build and a 2xx item |

## Left out

- `logout`, `getZepetoAccounts`, `deleteZepetoAccount` and `addZepetoAccount` (actions.ts:8-93) are database, cookie and cache calls with no decision logic of their own.
- `validateAccount` draws its status from `Math.random()`.
- The session lookup and the account lookup are inputs. A database error from them, which would escape the action uncaught, is not modelled.
- Request contents are not modelled:
  - the login URL and the credentials;
  - the request headers;
  - the scan payload (`name`, `type`, `extension`);
  - the link, create and item payloads;
  - the price and currency.
- The `fileId`, `categoryId`, `token` and `fileName` parameters of `finalizeZepetoUpload` only feed request contents, so they are not parameters of `Finalize.FinalizeUpload`.
- The `categoryId` argument of `finalizeZepetoUpload` is taken to be what `prepareZepetoUpload` returns: a string or `undefined`. Converting a crafted argument into the build URL is not modelled.
- `console` logging and the two `setTimeout` settle delays (actions.ts:240, 246) do not affect the outcome.
- `Prepare.ShapeResult`: uses the corrected category lookup `Categories.CategoryId`. For the twelve `Object.prototype` member names (`constructor`, `toString`, `__proto__`, …) the code returns the inherited member as `categoryIdMap`, where the model returns no identifier. `Categories.IndexLiteral` states what the code does.
- An object's members are listed in its property order, which is given with the value. `JSON.parse` would put integer-like keys first, in ascending order, and the model does not derive that order from the text. Parsed bodies have distinct keys (`Js.Json`); which value a repeated key in the text keeps is part of the given parse outcome.
- JSON parsing itself is not modelled. A body gives its text and its parse outcome as two independent inputs, and nothing ties the two together.
- Numbers are integers of magnitude below 2^53. Fractional and exponent forms of `String(n)` and `JSON.stringify` are not modelled.
- The messages of rejected `fetch`, `text()` and `json()` calls are inputs. The TypeError wording is V8's.
- `Scanner.Prefix` counts Unicode characters, not UTF-16 code units. It therefore differs from `substring(0, 100)` when a character outside the Basic Multilingual Plane occurs among the first 100.
- Serialising the action's result back to the browser is not modelled. This matters for a function value reached through an inherited category key; see Findings.
- `app/dashboard/_components/ZepetoUploader.tsx` is not part of this model: the form, the UI state and the browser-side byte `PUT` to the upload URL. `next.config.js` is build configuration.
- The session state machine (created, authenticated, discovered, transferred, linked, built, published) has no counterpart in the code. The order of the request trace is what the model states.

## Findings

| source | as written | input that shows it | evidently intended | confidence | as-written member | corrected member |
|---|---|---|---|---|---|---|
| app/dashboard/actions.ts:187 | the category is found by indexing an object literal, which also finds members inherited from `Object.prototype` | category key `constructor` yields the `Object` constructor rather than `undefined` | an identifier for the five table keys, `undefined` for every other key | medium, not executed | `Categories.InheritedKeyIsNotUndefined` | `Categories.CategoryId` |
