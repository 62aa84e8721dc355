# Datalayer collection endpoint — Dafny model

This project models the serverless endpoint in `api/collect-datalayer.js`. A browser
posts a batch of analytics events (the "datalayer") to this endpoint. The handler does
four things:

- It checks the HTTP method, the `referer` header against an allow-list of origin
  prefixes, and a shared-secret `x-client-token` header.
- It checks the shape and size of the batch.
- It removes personally identifying fields from every event record.
- It relays the cleaned batch to the data store and maps the outcome to a status code.

Three files:

- `Options.dfy`: the `Option` type. It stands for JavaScript's "present or `undefined`".
- `Sanitizer.dfy`: `sanitizeDataLayer`.
  - A record is the list of its `(key, value)` entries, in the order that `Object.entries`
    gives and `Object.fromEntries` rebuilds.
  - Values are a type parameter, because they are never inspected.
  - The proofs show four things about the filter:
    - It keeps the batch's length and order.
    - It drops exactly the entries whose lower-cased key is one of the seven sensitive
      names, and keeps every other entry, in its original relative order.
    - It keeps keys distinct.
    - Running it twice gives the same result as running it once.
- `Handler.dfy`: the decision chain of `handler`, as a pure function.
  - It maps an abstract request, the configured token (possibly unset) and the relay's
    success flag to a response.
  - The response holds the status, the three CORS headers, the body, and the batch
    relayed, if any.
  - Each check is a named gate. The proofs show these properties:
    - Outside a preflight, the first failing gate decides the answer.
    - The relay happens exactly when every gate passes, and it carries the sanitized batch.
    - The batch-size boundary sits at 1000.
    - The echoed `Access-Control-Allow-Origin` is the first allowed domain that is a prefix
      of the referer.
    - Prefix matching also admits a look-alike host such as `https://seusite.com.example.net/`.

The handler rejects a missing or non-array `datalayer` with 400 and never builds a
record of its own. It uses one fixed allow-list and one fixed list of sensitive keys.

## Model

| member | source | states |
|---|---|---|
| `Sanitizer.ToLower` | api/collect-datalayer.js:19 | keeps the key's length, lower-cases it position by position, and leaves no upper-case ASCII letter |
| `Sanitizer.SensitiveKeysAreLowerCase` | api/collect-datalayer.js:13-15 | the list holds seven names, each already in lower-case form, so each can match a lower-cased key |
| `Sanitizer.IsSensitiveMeansListedUpToCase` | api/collect-datalayer.js:19 | a key is sensitive exactly when it equals one of the listed names up to letter case |
| `Sanitizer.SanitizeRecord` | api/collect-datalayer.js:17-21 | every kept entry is an entry of the input with a non-sensitive key, and every input entry with a non-sensitive key is kept |
| `Sanitizer.Sanitize` | api/collect-datalayer.js:16-22 | the batch keeps its length, output record i is the filter of input record i, and no output record holds a sensitive key |
| `Sanitizer.SanitizeRecordOrder` | api/collect-datalayer.js:17-21 | a strictly increasing map from output to input positions exists, is the identity on entries, and hits exactly the non-sensitive input positions, so kept entries keep their relative order |
| `Sanitizer.SanitizeRecordKeepsDistinctKeys` | api/collect-datalayer.js:17-21 | a record with distinct keys stays one with distinct keys |
| `Sanitizer.SanitizeRecordLookup` | api/collect-datalayer.js:17-21 | looking up a key in the sanitized record gives nothing for a sensitive key and the original value otherwise |
| `Sanitizer.SanitizeRecordIdempotent` | api/collect-datalayer.js:17-21 | filtering a record twice equals filtering it once |
| `Sanitizer.SanitizeIdempotent` | api/collect-datalayer.js:16-22 | sanitizing a batch twice equals sanitizing it once |
| `Sanitizer.SensitivityIgnoresCase` | api/collect-datalayer.js:19 | two keys that agree once lower-cased are both sensitive or both not |
| `Sanitizer.MixedCaseExample` | api/collect-datalayer.js:13-19 | `Email` and `CPF` count as sensitive |
| `Sanitizer.ClickEventExample` | api/collect-datalayer.js:12-23 | a click event loses its `email` field and keeps `event` |
| `Handler.StartsWith` | api/collect-datalayer.js:27 | true exactly when the prefix is no longer than the string and equals its first characters |
| `Handler.RefererOrEmpty` | api/collect-datalayer.js:26 | a present header is used as it is; the result is `''` exactly when the header is absent or empty; an absent header matches no allowed domain |
| `Handler.AllowedOrigin` | api/collect-datalayer.js:27 | a found origin is a non-empty allowed domain that prefixes the request's referer, and none is found exactly when no allowed domain prefixes it |
| `Handler.Truthy` | api/collect-datalayer.js:41-46 | a string-or-undefined value is truthy exactly when it is neither absent nor `''` |
| `Handler.Passes` | api/collect-datalayer.js:37-54 | the referer gate passes iff some allowed domain prefixes the referer; the token gate iff a non-empty secret is configured and the header equals it; the size gate iff the batch has at most 1000 records |
| `Handler.FindAllowedOrigin` | api/collect-datalayer.js:27 | a found domain is in the list and prefixes the referer, and nothing is found iff no domain prefixes it |
| `Handler.FindAllowedOriginIsFirst` | api/collect-datalayer.js:27 | the result is the first domain in list order that prefixes the referer |
| `Handler.Handle` | api/collect-datalayer.js:25-75 | every response carries the two constant CORS headers and one of the statuses 200/400/403/405/413/500; a relay carries the sanitized body batch of at most 1000 records |
| `Handler.EchoedOrigin` | api/collect-datalayer.js:26-31 | on every branch, Allow-Origin is the first allowed domain that prefixes the referer |
| `Handler.EchoedOriginEmpty` | api/collect-datalayer.js:26-31 | when no allowed domain prefixes the referer, Allow-Origin is the empty string |
| `Handler.MissingRefererRefused` | api/collect-datalayer.js:26-43 | a POST without a referer echoes `''` and is refused 403 "invalid referer" |
| `Handler.PreflightAlwaysOk` | api/collect-datalayer.js:33-35 | an OPTIONS request gets 200, an empty body and no relay, whatever its referer, token or body |
| `Handler.FirstFailingGateDecides` | api/collect-datalayer.js:37-56 | outside a preflight, gate i (method, referer, token, shape, size) answers with its status and message iff it fails and all earlier gates pass |
| `Handler.RelayOnlyWhenAllGatesPass` | api/collect-datalayer.js:58-74 | the relay happens iff all gates pass, carries exactly the sanitized batch, and gives 200 `{success:true}` on upstream success and 500 otherwise |
| `Handler.UnsetTokenRefusesAll` | api/collect-datalayer.js:45-48 | with the shared secret unset or empty, no request is ever relayed |
| `Handler.SizeBoundary` | api/collect-datalayer.js:54-56 | once the earlier gates pass, a batch of 1000 is relayed and one of 1001 is refused with 413 |
| `Handler.RelayedPayloadIsClean` | api/collect-datalayer.js:58-67 | the relayed batch has the input's length, no sensitive key, and every non-sensitive entry of the matching input record |
| `Handler.ClickEventScenario` | api/collect-datalayer.js:25-74 | a POST from `https://seusite.com/page` with the right token relays `[{event: click}]`, echoes `https://seusite.com` and answers 200 |
| `Handler.LookalikeHostAdmitted` | api/collect-datalayer.js:27 | the referer `https://seusite.com.example.net/` matches the allowed origin `https://seusite.com` |

## Left out

- The `fetch` call to the data store is not modelled. Its URL, its `apikey` and `Authorization` headers, and `JSON.stringify` (lines 60-68) are network I/O. The model keeps only the batch that would be sent and a boolean for `response.ok`.
- A `fetch` that throws, and the platform's answer to the unhandled rejection, are not modelled.
- `process.env` (lines 8-10) is not read. The shared secret is a parameter that may be absent. The store's URL and key are not needed for any decision.
- The mechanics of `res` (`setHeader`, `status().json()`, `end()`) are not modelled. A response is a record of its status, its headers and its body.
- Concurrency and `async`/`await` are left out. Each call is an independent computation with no shared mutable state.
- `Sanitizer.ToLower` covers only ASCII letters. It stands in for the full Unicode `toLowerCase`. The seven sensitive names are plain ASCII, so only keys with non-ASCII letters could be judged differently.
- Ordering quirks of JavaScript objects are not modelled. `Object.entries` lists integer-like keys first. A record here is already in `Object.entries` order, and filtering keeps relative order, so the rebuilt object's order is the same.
- Symbol keys and non-enumerable properties are not modelled. `Object.entries` ignores them.
- Array elements that are not plain objects are not modelled. For example, `null` makes `Object.entries` throw, and a string becomes index-keyed entries. Every element is modelled as a record.
- Headers that arrive as arrays, and a `req.method` other than a plain string, are not modelled.
- `Sanitizer.SanitizeRecordLookup` reads the first entry for a key. `Object.fromEntries` would keep the last one if a key repeated. `Object.entries` never yields a key twice, so the two agree on every record the handler can receive. The model does not impose distinct keys on request records.
