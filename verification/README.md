# Van-Damage damage-report handler, modelled in Dafny

The repository has one serverless endpoint, `POST /api/create-damage`. It
takes a vehicle-damage report from a browser page, applies a CORS
allow-list, validates the request, maps the loose JSON body onto the
`fields` of a new Airtable record, creates that record through Airtable's
REST API and relays Airtable's answer. This project models the whole
handler as pure functions over immutable values and proves what it
promises about each outcome.

Modules, one per part of the handler:

- `Wrappers`: the `Option` type.
- `JsValues`: the JavaScript values a parsed body can hold, plus
  `undefined`. Defines truthiness (`!x`, `if (x)`, `x || d`),
  `typeof x === "number"` and property reads.
- `Cors`: the origin allow-list, `setCors` as a sequence of
  `setHeader` writes, and the resulting headers.
- `Fields`: the body-to-`fields` mapping, the shape of its results, and
  a body builder that inverts the mapping.
- `Airtable`: the outbound record-creation request as data, the URL
  layout and its parser, and the relay of Airtable's answer.
- `Handler`: the decision chain (preflight, method, token, required
  fields, forward) as one function `Handle`.

Everything outside the handler's own code is an input:

- the access token (`AIRTABLE_PAT`) is an `Option<string>`;
- Airtable's answer is an `Upstream` value: status, raw text and parsed
  JSON;
- `encodeURIComponent`, and the string conversion a template literal
  applies to a non-string, are function values in `Foreign`.

The handler issues no `fetch` in the model. It returns the request it
would send, and `Exchange.outbound` is `None` on every path that returns
before the call.

The base id is put into the URL path without escaping. So the URL
string splits back into base and table segments only when the base id has
no `/`. `Airtable.RecordUrlRoundTrip` carries that premise. Characters such
as `?` or `#` in the base id also change the path that is requested, and
the model does not interpret URLs beyond this string split.

## Model

| member | source | states |
|---|---|---|
| `Cors.Includes` | api/create-damage.js:12 | the allow-list test is true exactly when the origin is one of the list's elements |
| `Cors.SetHeaders` | api/create-damage.js:13-17 | after a sequence of `setHeader` calls, each name holds the value of its last write, and names never written keep their earlier value or stay absent |
| `Cors.OriginOf` | api/create-damage.js:11 | an absent or empty `Origin` header reads as `""`, otherwise the header value is used |
| `Cors.CorsHeaders` | api/create-damage.js:4-18 | `Access-Control-Allow-Origin` is set exactly when the origin is one of the two allowed origins, and then equals it; `Vary: Origin`, `Access-Control-Allow-Methods: POST, OPTIONS` and `Access-Control-Allow-Headers: Content-Type, Authorization` are always set; no other header is written |
| `Cors.AbsentOriginNeverAllowed` | api/create-damage.js:4-12 | a request without an `Origin` header never gets `Access-Control-Allow-Origin` |
| `Fields.MapFields` | api/create-damage.js:32-40 | `Vehicle`, `Status` and `Note` are always present, with `Status` always `"Open"`; `Vehicle` is the vehicle if truthy, else `"UNKNOWN"`; `Note` is the note if truthy, else `""`; `Photo` is `[{url: photoUrl}]` exactly when `photoUrl` is truthy; `View` is present exactly when `view` is truthy; `XPct`/`YPct` are present exactly when the input is a number, including 0 and NaN, and are copied unchanged; no other key appears |
| `Fields.MapFieldsIsRecordShaped` | api/create-damage.js:32-40 | every mapping result has the record shape: the three fixed fields, a truthy vehicle, a truthy or empty note, and optional fields only in their gated forms |
| `Fields.MapFieldsOnto` | api/create-damage.js:32-40 | every record-shaped `fields` object is the mapping of the body `BodyFor` builds from it, so the mapping produces exactly the record-shaped objects |
| `Airtable.RecordUrlRoundTrip` | api/create-damage.js:42 | for a base id without `/`, splitting the string `https://api.airtable.com/v0/<baseId>/<encoded table>` at its first `/` after the root gives back exactly that base id and encoded table |
| `Airtable.CreateRecord` | api/create-damage.js:42-49 | the outbound call is a POST to `https://api.airtable.com/v0/<baseId>/<encoded table>` for every base id; it carries a bearer token and a JSON content type; its body is exactly `{fields}` with the mapped fields; its URL parses back into the base id and encoded table whenever the base id has no `/` |
| `Airtable.Relay` | api/create-damage.js:51-57 | a non-ok Airtable status (outside 200-299) is passed through, with a body of exactly `error: "Airtable error"` and the raw body text as `detail`; an ok answer yields 200 with exactly `id` and `fields` copied from Airtable's JSON |
| `Airtable.RelayRoundTrip` | api/create-damage.js:56-57 | a created record `{id, fields}` returned by Airtable reaches the caller unchanged |
| `Handler.Payload` | api/create-damage.js:29 | a falsy or absent body is replaced by `{}`; a truthy body is used as is |
| `Handler.Handle` | api/create-damage.js:20-57 | every response carries the CORS headers for its origin. `OPTIONS` gets 204 with no body. Any other non-POST method gets 405 `POST only`. A POST with a missing or empty token gets 500 `Missing AIRTABLE_PAT`. A POST with a falsy `baseId` or `table` gets 400 `Missing baseId or table`. Airtable is called exactly when all four checks pass. The call is then the record-creation request built from the interpolated base id, the encoded interpolated table, the token and the mapped fields, whatever the base id's type. The response is then Airtable's answer relayed |
| `Handler.PreflightIgnoresEverythingButOrigin` | api/create-damage.js:21-22 | two preflight requests with the same origin get the same response, whatever their bodies, the token or Airtable's state, and neither calls Airtable |
| `Handler.TokenCheckedBeforeBody` | api/create-damage.js:26-29 | when the token is missing, replacing the request body changes nothing: the token is checked before the body is read |
| `Handler.EmptyBodyIsMissingTarget` | api/create-damage.js:29-30 | a POST with an absent or falsy body, and a token present, gets 400 and makes no call to Airtable |

## Left out

- The `fetch` call itself, awaiting it, and reading Airtable's body with `r.text()` / `r.json()`. These are network I/O. Airtable's answer is the `Upstream` input, and it is consulted only on the path that makes the call.
- `encodeURIComponent`, and the string conversion `${v}` applies to a non-string value. These are library functions, passed in as the function values of `Foreign`. A string value interpolates as itself.
- The `try`/`catch` path (api/create-damage.js:58-60), which yields 500 with the exception's message. The handler's own control flow throws nothing, so every exception comes from the runtime or a library call:
  - `encodeURIComponent(table)` throws a URIError for a string with a lone surrogate;
  - `${baseId}` or `${table}` throws a TypeError for an object with no callable `toString`/`valueOf`;
  - `fetch`, `r.text()` or `r.json()` can fail;
  - reading `data.id` throws when Airtable's JSON is `null`.

  On such inputs the source answers 500. The model treats `Foreign`'s functions as total and forwards instead, and `Upstream` is always a complete answer. Reading a property of any other non-object gives `undefined` in the model.
- Strings. JavaScript strings are sequences of UTF-16 code units and may hold lone surrogates. A Dafny `char` is a Unicode scalar value and cannot hold one, so the model's strings cover only well-formed text.
- `process.env` and the platform's `res` object. The token is an `Option<string>`. A response is a status, the headers the handler sets, and a body. The `Content-Type` that `res.json` adds is not modelled, and neither is `JSON.stringify`'s omission of `undefined` properties when the body is serialised.
- Parsing the request body into JSON. The hosting platform does it before the handler runs, so the body is an input `JVal`.
- Numbers. They are kept abstract (NaN, a finite real, or an infinity) with no floating-point arithmetic. Negative zero is folded into zero, which is falsy either way.
- Property order in JavaScript objects, and inherited (prototype) properties. Objects are maps of own properties.
- `Cors.CorsHeaders`: states only the headers `setCors` writes on the response. Headers the hosting platform adds on its own are not part of it.
