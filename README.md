# AUDNPR rate fetcher, modelled in Dafny

The AUDNPR widget shows one number: how many Nepalese rupees one Australian
dollar buys. Its only logic that is not presentation is `RateFetcher` in
`Shared/RateFetcher.swift`. The fetcher asks two exchange-rate providers in a
fixed order and keeps the first rate it gets:

1. **Host** (`api.exchangerate.host`). The request names the base and the
   wanted symbol in its query.
2. **ER-API** (`open.er-api.com`). The request names only the base and gets
   back the whole rate table for it.

For each provider the code does the same things in order. It builds a GET
request that bypasses the local cache and times out after 8 seconds. It sends
the request. It returns `nil` unless the status is 200. It decodes
`{"rates": {...}}`, which throws on a malformed body. Then it returns the
entry for the quote, which may be absent. `fetch` wraps each provider in
`try?`, so a throw and a `nil` look the same. It returns the first rate it
gets and throws `FetchError.badData` only when both providers come up empty.

## Layout

- `Wrappers.dfy`: `Option` and `Result`.
- `Wire.dfy`: the values that cross the network boundary. A `Request` holds
  the URL, the cache policy and the timeout. An `Outcome` is either a
  transport error or a response with an optional HTTP status and a decoded
  `Payload`, which is `Malformed` or `Rates(map)`. The network itself is a
  `Transport`, a function from `Request` to `Outcome`, passed to the fetcher
  as a parameter. `Serves` and `Supplies` say what an outcome offers for a
  quote, stated directly on the raw outcome.
- `Url.dfy`: a small URL reader that gives the path, the last path segment
  and the query parameters. The URL builders are checked against it: what a
  server reads from the URL is what the fetcher meant to send.
- `RateFetcher.dfy`: the requests, the shared reading of an outcome
  (`ReadRate`), the two providers, the `try?` flattening (`Attempt`), the
  fallback `Fetch`, and `FetchLogged`. `FetchLogged` is the same fallback
  written as a sequence of calls. It keeps a ghost log of the requests it
  sends, which shows that ER-API is not asked once Host has answered.

`Fetch` keeps the source's default arguments `base := "AUD"` and
`quote := "NPR"`. `Fetch` is a function of the transport, so two fetches
against the same provider data give the same result.

Three points about the code that the model keeps as they are:

- The code does not check that the rate is positive or finite: whatever
  number the provider puts under the quote key is returned. The model passes
  the rate through unchanged and proves nothing about its sign.
- `fetchFromHost` and `fetchFromERAPI` throw on transport and decode errors;
  `fetch` absorbs them with `try?`. The model keeps that split:
  `ProviderResult` has `Threw`, and `Attempt` is the `try?`.
- A response that is not an HTTP response fails the cast at
  `Shared/RateFetcher.swift:21` and `:32`. Its status then compares unequal
  to 200, which gives `nil`. The model writes this as `statusCode == None`.

## Model

| member | source | states |
|---|---|---|
| `RateFetcher.HostRequestCarriesPair` | Shared/RateFetcher.swift:16-19 | For the request `HostRequest` builds: a server reading its URL finds path `https://api.exchangerate.host/latest`, the query exactly `base=<base>&symbols=<quote>`, parameter `base` equal to the base and `symbols` equal to the quote. The request uses no local cache and has timeout 8. |
| `RateFetcher.HostUrlReadsBack` | Shared/RateFetcher.swift:16 | A server reading the Host URL finds path `https://api.exchangerate.host/latest`, parameter `base` equal to the base and `symbols` equal to the quote. |
| `RateFetcher.HostQueryIsPair` | Shared/RateFetcher.swift:16 | The query of the Host URL is exactly `base=<base>&symbols=<quote>`, with no other parameter, and the URL has no fragment (`#` does not occur in it). |
| `RateFetcher.ERAPIRequestCarriesBase` | Shared/RateFetcher.swift:27-30 | For the request `ERAPIRequest` builds: its URL's path is exactly `https://open.er-api.com/v6/latest/<base>`, its last path segment is the base, and it has no query at all, so the quote is never sent. The request uses no local cache and has timeout 8. |
| `Url.TwoParameterUrl` | Shared/RateFetcher.swift:16 | A URL `path?k1=v1&k2=v2` with delimiter-free parts and distinct names reads back as path `path`, with `k1` giving `v1` and `k2` giving `v2`. |
| `Url.SegmentUrl` | Shared/RateFetcher.swift:27 | A URL `prefix/segment` with a delimiter-free segment has that segment as its last path segment and has no query. |
| `RateFetcher.ReadRate` | Shared/RateFetcher.swift:20-23 | A transport failure throws `TransportFailed`. A non-200 response, or one that is not HTTP, returns `nil` whatever its body. A 200 response with a malformed body throws `DecodeFailed`. A rate comes back exactly when the decoded table has the quote, and it is that table's entry (the same steps are at lines 31-34). |
| `RateFetcher.FetchFromHost` | Shared/RateFetcher.swift:15-24 | Host yields a rate iff the outcome of its one request serves the quote, and the rate is the entry in that outcome's table. It throws iff that outcome is a transport error or a malformed 200 body. |
| `RateFetcher.FetchFromERAPI` | Shared/RateFetcher.swift:26-35 | The same as Host, for the outcome of the base-only ER-API request: the quote is picked from the whole returned table. |
| `RateFetcher.Fetch` | Shared/RateFetcher.swift:9-13 | If Host serves the quote, the result is Host's rate. If Host does not serve it and ER-API does, the result is ER-API's rate. The result is `BadData` iff neither serves it. No other error can come out, since provider throws are absorbed. |
| `RateFetcher.FetchRateHasOneSource` | Shared/RateFetcher.swift:10-11 | A successful result equals the quote's entry in exactly one provider's table, never a mix of the two. It is ER-API's only when Host did not serve the quote. |
| `RateFetcher.HostAnswerSettlesFetch` | Shared/RateFetcher.swift:10 | Once Host serves the quote, any transport that agrees with it on the Host request gives the same result. What ER-API would answer does not matter. |
| `RateFetcher.HostThrowActsAsNil` | Shared/RateFetcher.swift:10-11 | A Host call that throws and one that returns `nil` lead to the same result, given the same ER-API outcome. |
| `RateFetcher.FetchLogged` | Shared/RateFetcher.swift:9-13 | The step-by-step fetch returns what `Fetch` returns. Its request log starts with the Host request and is exactly `[Host]` when Host serves the quote; otherwise it is `[Host, ER-API]`. |
| `RateFetcher.HostAnswersScenario` | Shared/RateFetcher.swift:10 | AUD/NPR where Host answers `{"rates":{"NPR":88.77}}` with status 200: the result is 88.77. |
| `RateFetcher.HostTimesOutScenario` | Shared/RateFetcher.swift:10-11 | AUD/NPR where Host times out and ER-API returns `{"rates":{"NPR":88.50,"USD":0.65}}`: the result is 88.50. |
| `RateFetcher.HostLacksQuoteScenario` | Shared/RateFetcher.swift:10-11 | AUD/NPR where Host's 200 table lacks NPR: the result is ER-API's 88.50. |
| `RateFetcher.BothFailScenario` | Shared/RateFetcher.swift:12 | AUD/NPR where both providers answer 500: the result is `BadData`. |

## Left out

- Networking (`URLSession.shared.data`), JSON decoding and the
  `HTTPURLResponse` cast are platform library calls. They become the
  `Transport` parameter and the `Outcome`/`Payload` values.
- Async suspension, the real 8-second timeout and cancellation are about
  concurrency and time. A timeout is one more `TransportError` outcome; the
  timeout value is modelled only as the field of the request.
- Floating point: a rate is a `real` and is only passed along. NaN, infinity
  and rounding are not modelled.
- The force-unwrapped `URL(string:)!` at `Shared/RateFetcher.swift:16` and
  `:27` is not modelled. The model takes the built string as the URL. A code
  that the platform cannot turn into a URL would crash there.
- HostRequestCarriesPair: proved only for codes made of ASCII letters and
  digits. The source does no percent-encoding, so a code containing `&`,
  `=`, `?`, `#` or `/` changes what the server reads.
- ERAPIRequestCarriesBase: proved only for codes made of ASCII letters and
  digits, for the same reason.
- Key lookup in the decoded rates table compares code points, not
  canonically equivalent strings as Swift's `String` does at
  `Shared/RateFetcher.swift:23` and `:34`. A quote written with a
  precomposed character and a table key written with the decomposed form
  match in Swift but not in the model. ASCII currency codes are unaffected.
- The URL reader in `Url.dfy` does no percent-decoding and does not split
  off the scheme, host or port. The lemmas only use the path, the last
  segment and the query.
- `AUDNPRwidget/AUDNPRwidget.swift` is presentation: the timeline provider,
  the 8-hour refresh date and the `%.1f` formatting. Line 26 turns a thrown
  fetch into a `nil` rate, and line 55 shows `nil` as `—`. It is not part of
  this model.
- `AUDNPR/AUDNPRApp.swift` and `AUDNPRwidget/AUDNPRwidgetBundle.swift` are
  the app shell and widget registration, with no logic. They are not part of
  this model.
