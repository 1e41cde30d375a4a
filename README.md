# AIRedirect proxy handlers, modelled in Dafny

AIRedirect is a Cloudflare Pages proxy that lets OpenAI-style clients talk to the
GitHub Models API. This project models the request decisions of its two handlers:

- `functions/processor.js`: `onRequest` routes by exact pathname to the models
  handler, the chat handler or a 404. `handleModelsRequest` serves `/v1/models`
  from the platform cache. On a miss it checks the caller's `Authorization`,
  fetches the GitHub catalog and normalises it into an OpenAI
  `{object: "list", data: [...]}` body. It then stores that response in the cache.
  `handleChatCompletionsRequest` refuses non-POST methods, then missing
  credentials. Otherwise it forwards the body to GitHub's chat endpoint with a
  fixed set of headers.
- `functions/api/openai.js`: `onRequest` answers GET with a health message,
  forwards a credentialed POST the same way, and answers every other method
  with 405.

Modules: `Optional` (absent values), `Catalog` (normalisation), `Http` (request,
response and outbound values, the credential test, header lookup), `GitHub`
(endpoints and the two outbound requests), `Processor` and `OpenAI` (one per
source file).

Modelling choices:
- A credential is the result of `headers.get('Authorization')`. JavaScript's
  `!authHeader` treats both null and `""` as missing (`Http.HasCredential`).
- Time and date parsing are parameters. `nowMs` stands for `Date.now()`.
  `parseDate` stands for `new Date(v).getTime()`, with `None` for NaN.
  `Math.floor(ms / 1000)` is Dafny's `ms / 1000`, which rounds down for a
  positive divisor.
- The upstream is a parameter `fetchCatalog: Outbound -> CatalogReply`. It is
  consulted only when the handler issues its fetch. The handler also returns the
  request it sent (`None` when it sent none), so "no upstream call" is a
  checkable fact.
- The chat handlers return what `fetch` gives back, untouched. They are
  modelled as `Forward(outbound request)`.
- The cache (`caches.default`) is a class holding a `map` from an abstract key to
  a response. The `context.waitUntil(cache.put(...))` write is modelled as
  finishing before the handler returns.
- Response headers are the ones the code sets in its `Response` init object.

## Model

| member | source | states |
|---|---|---|
| Catalog.FloorSeconds | functions/processor.js:73 | `Math.floor(ms/1000)` is the whole second that contains the instant: `s*1000 <= ms < s*1000+1000` |
| Catalog.OwnedBy | functions/processor.js:74 | the owner is the publisher when it is present and non-empty, otherwise `'unknown'`; it is never empty |
| Catalog.Created | functions/processor.js:73 | version "1" gives the current second. Any other version gives the second of its parsed date. The clock is the fallback when parsing fails (NaN) or when the parsed instant lies in `[0, 1000)` ms, because `||` also catches 0. `created` is 0 only when the clock itself is in the first second |
| Catalog.NormalizeModel | functions/processor.js:70-75 | each entry keeps its `id`, gets `object == "model"`, the owner of `OwnedBy` and the timestamp of `Created` |
| Catalog.Normalize | functions/processor.js:70-75 | the mapped list has the upstream's length, and entry `i` is the normalisation of upstream entry `i` (order preserved) |
| Catalog.NormalizePreservesIds | functions/processor.js:70-71 | the sequence of ids after normalisation equals the upstream sequence of ids |
| Catalog.NormalizedEntries | functions/processor.js:70-75 | every output entry is of kind "model", has a non-empty owner and the input's id, and its `created` comes from the clock or from its own parsed version |
| Http.Lookup | functions/processor.js:112-117 | reading a header the proxy builds (here, for instance, the outbound chat headers; likewise the catalog and response headers at lines 52-56 and 85-88) finds a value exactly when a header of that name exists, and the value is that header's |
| Http.HasCredential | functions/processor.js:47 | a credential is present exactly when `get('Authorization')` is non-null and not the empty string: null and `""` are the falsy values `!authHeader` catches (also lines 108 and functions/api/openai.js:26) |
| GitHub.CatalogReply.Ok | functions/processor.js:63 | `catalogResponse.ok` holds exactly for a 2xx status; a reply that is not ok has a status from 300 to 599 |
| GitHub.CatalogRequest | functions/processor.js:52-61 | the catalog fetch is a GET to the catalog URL with no body and exactly the headers `Authorization` (the caller's, unchanged), `Accept: application/vnd.github+json` and `X-GitHub-Api-Version: 2022-11-28` |
| GitHub.ChatRequest | functions/processor.js:112-123 | the chat forward is a POST to the chat URL. It carries the body unchanged and exactly the headers `Authorization` (unchanged), `Content-Type: application/json`, the GitHub `Accept` and the API version |
| Processor.RouteOf | functions/processor.js:10-23 | dispatch uses the exact pathname only. `/v1/models` goes to the models handler, `/v1/chat/completions` and `/api/openai` go to the chat handler, and every other path is not found |
| Processor.CatalogFailure | functions/processor.js:63-65 | an upstream failure is answered with the upstream's status unchanged and a plain-text body |
| Processor.CatalogResponse | functions/processor.js:77-89 | a fresh catalog is answered with status 200, body `{object: "list", data}` and exactly the headers `Content-Type: application/json` and `Cache-Control: public, max-age=3600` |
| Processor.ChatCompletions | functions/processor.js:102-123 | a non-POST gets 405 whatever its credential. A POST without a credential gets 401. Only a credentialed POST is forwarded: a POST to the chat URL with the body and `Authorization` unchanged, `Content-Type: application/json`, `Accept: application/vnd.github+json` and `X-GitHub-Api-Version: 2022-11-28`, and no other header |
| Processor.ModelsRequest | functions/processor.js:32-95 | a cache hit returns the stored response with no fetch and no write. A miss without a credential returns 401 with no fetch and no write. A fetch happens exactly on a credentialed miss: a bodiless GET to the catalog URL with the caller's credential, the GitHub `Accept` and the API version. A non-ok upstream status is passed through with the plain-text failure body and no write. An ok upstream gives the 200 catalog response, stored under the request's key. No other key changes |
| Processor.ResponseCache.Match | functions/processor.js:34 | a lookup finds a response exactly when the key is cached, and returns the cached response |
| Processor.ResponseCache.Put | functions/processor.js:92 | a put stores the response under the key and leaves every other key as it was |
| Processor.HandleModels | functions/processor.js:32-95 | the step-by-step handler returns the response and fetch of `ModelsRequest` and leaves the cache in the state `ModelsRequest` describes |
| Processor.OnRequest | functions/processor.js:7-24 | the models route runs the models handler. The chat route gives the chat handler's outcome, and other paths give 404 `'Not Found'`. Neither of those two touches the cache or the catalog |
| Processor.SecondRequestServedFromCache | functions/processor.js:34-39 | once a request has left its key cached, a second request with that key gets the identical response. There is no credential check, no fetch and no write, whatever the second credential and the upstream |
| Processor.CatalogListsUpstreamIds | functions/processor.js:67-94 | a successful miss answers 200 with exactly the upstream's ids in the upstream's order, each of kind "model" |
| Processor.CacheHoldsOnlyCatalogs | functions/processor.js:83-92 | the handler writes only 200 catalog lists with the JSON and cache headers, so a cache holding only those still does afterwards |
| OpenAI.OnRequest | functions/api/openai.js:7-51 | GET gives 200 `{status: "ok", ...}` with JSON content type, whatever the headers. A POST without a credential gives 401 with the JSON error and JSON content type. A credentialed POST is forwarded to the chat URL with the credential and the body unchanged and the three fixed headers with their values (JSON content type, GitHub `Accept`, API version `2022-11-28`). Any other method gives 405 `'Method Not Allowed'` |
| OpenAI.DecidedByMethodAndCredential | functions/api/openai.js:12-50 | the branch depends only on the method and on whether a credential is present. The handler's own replies are 200, 401 or 405 |
| OpenAI.AgreesWithProcessorChat | functions/api/openai.js:24-44 | on a credentialed POST this handler forwards the same request as the chat handler of `functions/processor.js`. On a POST without a credential they differ only in the 401's Content-Type header. On GET this one gives the health reply where the other gives 405 |

## Left out

- Network I/O: `fetch` is the `fetchCatalog` parameter for the catalog. For chat, it is the `Forward` outcome, whose upstream response is returned unchanged. Streaming of `request.body` is a pass-through of an opaque byte sequence.
- Transport failures of `fetch` (a rejected promise) are not handled by the source and are not modelled. There is no 502/504 mapping.
- Malformed upstream catalog bodies are not modelled. The model receives the decoded array, so a `.json()` that throws and a non-array that has no `.map` are not covered. Entries are taken to have string `id` and `version` and an optional string `publisher`.
- Processor.CatalogFailure: for an upstream 304, `new Response(text, {status: 304})` at functions/processor.js:64 throws, because 304 is a null-body status, so the source builds no response. The model answers a 304 like any other failure, with that status and the text body. The catalog GET sends no conditional headers, so an upstream following HTTP does not answer 304.
- Catalog.Normalize: the model uses one clock instant `nowMs` for the whole catalog, while the source reads `Date.now()` again inside the `.map` callback for every entry. In the source, two entries with version "1" (or with unparsable dates) can get `created` values that differ by the time the map takes; in the model they are equal.
- Catalog.Created: `Date.now()` may be read twice in the source expression. The model uses one instant `nowMs` for both reads. Date parsing is the `parseDate` parameter.
- Asynchronous scheduling: `context.waitUntil` is modelled as a write that finishes before the response is returned. A failed cache write, which the source ignores, is not modelled.
- The platform's matching of requests to cache keys and its expiry by `Cache-Control` are not modelled. The key is a type parameter chosen by the caller.
- JSON serialisation: bodies are datatypes, not strings. The runtime's default `Content-Type` for string bodies is not modelled.
- Header names are compared exactly. `Headers` is case-insensitive, but every name the handlers use is a fixed literal.
- `console.log` calls have no behaviour to model.
- `functions/[[path]].js` is another version of the router. Its `/v1` health path for GET/HEAD and its `/` alias for chat are not part of this model.
- Duplicated-prefix path normalisation (`/v1/v1/models`), OPTIONS/CORS answers, HEAD health checks and 502/504 answers appear in neither modelled file and are not modelled.
- Request methods are compared as the strings the runtime reports, exactly as the source compares them. The runtime's upper-casing of standard method names is not modelled.
