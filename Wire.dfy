/** What the fetcher exchanges with the outside world: the request it builds
    and the outcome the platform's HTTP client and JSON decoder hand back.
    The client and the decoder themselves are not modelled; an outcome is an
    input to the model. */
module Wire {
  import opened Wrappers

  /** An exchange rate. The fetcher never computes with it, only passes it on. */
  type Rate = real

  /** The two cache policies that matter here: the platform default, and the
      one that always goes to the network. */
  datatype CachePolicy = UseProtocolCachePolicy | ReloadIgnoringLocalCacheData

  /** A GET request: the URL string, the cache policy and the timeout in seconds. */
  datatype Request = Request(url: string, cachePolicy: CachePolicy, timeoutInterval: real)

  /** A response body after JSON decoding against `{"rates": {String: Double}}`.
      `Malformed` stands for every body the decoder rejects: not JSON, no
      `rates` field, a value that is not a number. Extra fields are ignored
      by the decoder and do not appear. */
  datatype Payload = Malformed | Rates(rates: map<string, Rate>)

  /** What one network call yields. `TransportError` covers every thrown
      failure of the call itself (no connection, DNS, timeout, cancellation).
      A response carries its HTTP status code, or `None` when the response is
      not an HTTP response at all. */
  datatype Outcome =
    | TransportError
    | Response(statusCode: Option<int>, body: Payload)

  /** The network, as seen by one fetch: each request gets one outcome. */
  type Transport = Request -> Outcome

  /** The outcome offers a rate for `quote`: a 200 response whose decoded
      rates table has an entry for `quote`. */
  predicate Serves(o: Outcome, quote: string)
  {
    o.Response? && o.statusCode == Some(200) && o.body.Rates? && quote in o.body.rates
  }

  /** The outcome offers exactly the rate `v` for `quote`. */
  predicate Supplies(o: Outcome, quote: string, v: Rate)
  {
    Serves(o, quote) && o.body.rates[quote] == v
  }
}
