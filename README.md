# Edge proxy of the AI Educator app, modelled in Dafny

The AI Educator front end talks to the upstream messages API through a
Cloudflare Worker (`cloudflare-proxy/src/index.js`). The worker does five things
before it relays a request, in this order:

- It chooses the CORS `Access-Control-Allow-Origin` value from a three-entry allow-list.
- It answers preflight (OPTIONS) requests and refuses every other method but POST.
- It applies a per-IP rate limit. Each IP gets a fixed window of 60000 ms, and at most 15 calls per window are let through.
- It checks that the JSON body has a `messages` array.
- It forwards a normalised body. A missing model gets a default, `system` defaults to `''`, and `max_tokens` defaults to 2048 and is capped at 4096.

This project models that logic. The files are:

- `js.dfy` (module `Js`): an `Option` type and `OrElse`, the JavaScript `v || fallback` for a value that may be missing or the empty string.
- `rate_limit.dfy` (module `RateLimit`): `isRateLimited` and `rateLimitMap`. `RateLimiter` is a class whose `table: map<string, Entry>` is updated in place by `IsRateLimited`. The current time is a parameter. `Hit` is the pure step that the method is proved against. `Admitted` and `After` replay a sequence of calls from one IP. The lemmas about them prove the 15-per-window cap and the strict window boundary.
- `cors.dfy` (module `Cors`): `getCorsHeaders` as a pure function over header maps.
- `proxy.dfy` (module `Proxy`): the `fetch` handler. `Decide` is the decision sequence as a total function. `Render` maps an outcome to a response. `Fetch` is the handler itself: a method that consults the rate limiter only for a POST and is proved equal to `Render(Decide(..))`.

The code and the design description of the repository disagree in three places. This model follows the code:

- The design description calls the rate limit a sliding window. The code uses a fixed window, which resets only when `now - windowStart > 60000`. `RateLimit.FixedWindowBurst` shows the consequence: 30 calls from one IP are all let through, 29 of them within a single millisecond.
- The design description says the body is forwarded unmodified apart from the `max_tokens` clamp. The code rebuilds the body from four fields, `model`, `max_tokens`, `system` and `messages`. It defaults three of them and drops every other field.
- The design description says malformed bodies receive 400. In the code, a body that `request.json()` cannot parse throws inside the `try`, and the `catch` answers 500 (`cloudflare-proxy/src/index.js:72`, `:103-107`). Only a body that parses but has no `messages` array gets 400. `Proxy.Decide` gives 500 for `Unparseable` and 400 for `NoMessages`.

## Model

| member | source | states |
|---|---|---|
| `Js.OrElse` | cloudflare-proxy/src/index.js:16 | `v \|\| fallback`: a missing value or `''` gives the fallback, any other string is kept, and a non-empty fallback never gives `''` |
| `RateLimit.Hit` | cloudflare-proxy/src/index.js:37-46 | a call is refused exactly when the new count exceeds 15; the count is either 1 (new window) or the old count plus one; the window start is either now or unchanged |
| `RateLimit.RateLimiter.constructor` | cloudflare-proxy/src/index.js:33 | the table starts empty |
| `RateLimit.RateLimiter.IsRateLimited` | cloudflare-proxy/src/index.js:33-46 | the answer and the new record of `ip` are those of `Hit`; only the entry for `ip` changes, every other entry is kept, and no entry is removed |
| `RateLimit.NewWindowAdmits` | cloudflare-proxy/src/index.js:39-42 | the first call from an IP, or one more than 60000 ms after its window opened, opens a window at `now` with count 1 and is let through |
| `RateLimit.SameWindowCounts` | cloudflare-proxy/src/index.js:44-45 | inside a window each call adds exactly 1 to the count, refused or not, and is refused exactly when the new count exceeds 15 |
| `RateLimit.WindowBoundaryIsStrict` | cloudflare-proxy/src/index.js:40 | exactly 60000 ms after the window opened the call is still counted in that window; at 60001 ms a new window opens |
| `RateLimit.Admitted` | cloudflare-proxy/src/index.js:37-46 | of a sequence of calls, no more are let through than were made |
| `RateLimit.AdmittedWithinWindow` | cloudflare-proxy/src/index.js:40-45 | calls that all fall inside an open window keep its start, raise its count by their number, and only those that keep the count within 15 are let through |
| `RateLimit.WindowAdmitsAtMostMax` | cloudflare-proxy/src/index.js:34-45 | of the calls inside one window, the first `min(n, 15)` are let through and every later one is refused |
| `RateLimit.AdmittedAppend` | cloudflare-proxy/src/index.js:37-46 | two batches of calls replayed one after the other give the same record and the same number let through as one combined batch |
| `RateLimit.FixedWindowBurst` | cloudflare-proxy/src/index.js:34-46 | the window is fixed: 1 call at `t`, 14 at `t + 60000` and 15 at `t + 60001` are all 30 let through |
| `Cors.CorsHeaders` | cloudflare-proxy/src/index.js:8-30 | the four CORS headers only; three keep their constant values; Allow-Origin is always one of the allowed origins: the request's Origin (missing read as `''`) if it is allowed, otherwise the configured origin |
| `Cors.AllowOriginIsEchoedOnlyIfAllowed` | cloudflare-proxy/src/index.js:17-28 | an Origin is echoed back if and only if it is on the allow-list |
| `Proxy.ClientIp` | cloudflare-proxy/src/index.js:63 | the rate-limit key is the CF-Connecting-IP header; when that is missing or empty the key is `'unknown'`, one bucket shared by all such requests; the key is never empty |
| `Proxy.ClampMaxTokens` | cloudflare-proxy/src/index.js:90 | forwarded `max_tokens` is never above 4096; missing or 0 gives 2048; a value in range is kept; a larger one becomes 4096 |
| `Proxy.Normalise` | cloudflare-proxy/src/index.js:88-93 | messages are passed on unchanged; max_tokens is clamped; a missing or empty model becomes `claude-sonnet-4-20250514`; a missing system becomes `''` |
| `Proxy.Decide` | cloudflare-proxy/src/index.js:52-79 | OPTIONS gives a preflight answer and nothing else does; any other non-POST gives 405; a limited POST gives 429; an unparseable body gives 500, a body without a `messages` array 400, and only a parsed body is forwarded, normalised |
| `Proxy.LimiterIrrelevantUnlessPost` | cloudflare-proxy/src/index.js:52-64 | for every method but POST the answer does not depend on the rate limiter |
| `Proxy.LimitedIgnoresBody` | cloudflare-proxy/src/index.js:63-72 | a limited POST gives 429 whatever its body holds, so the body is not read |
| `Proxy.Render` | cloudflare-proxy/src/index.js:52-108 | a preflight gives 204, no body and only the CORS headers; every other response adds `Content-Type: application/json`; errors give 405, 429, 400 or 500, each with its fixed error message; a forwarded request relays the upstream status and text unchanged, or gives 500 if the upstream call threw |
| `Proxy.Fetch` | cloudflare-proxy/src/index.js:48-110 | the handler's response equals `Render(Decide(..))`; OPTIONS and other non-POST requests leave the rate-limit table unchanged, so they use no quota; a POST records exactly one call for its client IP before its body is looked at |

## Left out

- The upstream call to the messages API, with its API-key and version headers, is left out. It is a network call, so it is a function parameter `UpstreamRequest -> UpstreamResult` that yields a status and text or throws. `Render` relays its result.
- `request.json()` and `JSON.stringify` are left out. The parsed body is abstracted as a three-way `Body`: unparseable, no `messages` array, or the four fields the worker reads. `messages` is a sequence of opaque strings. A body that parses to `null` throws on `body.messages`, which the model counts as `Unparseable`. A body that parses to any other non-object counts as `NoMessages`.
- `Proxy.ClampMaxTokens` models `max_tokens` only as a missing value or an integer. JavaScript's handling of floats, `NaN`, numeric strings and other falsy values in `Math.min(x || 2048, 4096)` is not modelled. A negative integer is passed through, as in the code.
- `Proxy.Normalise` models `model` and `system` only as missing or as strings. Other falsy JSON values such as `0`, `false` and `null` are not modelled separately.
- `Date.now()` is left out. The current time is the `now` parameter, an unbounded integer, so the precision limits of JavaScript numbers are not modelled.
- In the source, `entry.count++` mutates the stored entry object. The model replaces the map value instead. The entries never escape the map, so no aliasing is lost.
- The sharing of `rateLimitMap` across Worker isolates, and any concurrency in the Workers runtime, are left out. The model is one sequential instance.
- `Cors.CorsHeaders` takes `env.ALLOWED_ORIGIN` as a string. An unset binding (`undefined`) is not modelled.
- The `Response` constructor's own checks, such as a `RangeError` for an upstream status outside 200-599, are not modelled. The relayed status is passed through as an integer.
- `server.py` is not part of this model. It is a static file server with no logic of the proxy.
