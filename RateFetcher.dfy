/** The rate fetcher: two exchange-rate providers asked in a fixed order,
    the first answer kept. The network is the `transport` parameter; each
    provider call consults it exactly once. */
module RateFetcher {
  import opened Wrappers
  import opened Wire
  import opened Url

  /** The only error `Fetch` raises. */
  datatype FetchError = BadData

  /** Why a provider call throws: the network call itself failed, or the
      200 body did not decode. */
  datatype ProviderError = TransportFailed | DecodeFailed

  /** What a provider call does: throw, or return an optional rate. */
  datatype ProviderResult = Threw(error: ProviderError) | Returned(rate: Option<Rate>)

  const HostEndpoint := "https://api.exchangerate.host/latest"
  const ERAPIEndpoint := "https://open.er-api.com/v6/latest"

  /** Both providers wait at most this many seconds. */
  const ProviderTimeout: real := 8.0

  // ---------------------------------------------------------------------------
  // Requests

  function HostUrl(base: string, quote: string): string
  {
    "https://api.exchangerate.host/latest?base=" + base + "&symbols=" + quote
  }

  function ERAPIUrl(base: string): string
  {
    "https://open.er-api.com/v6/latest/" + base
  }

  /** A fresh GET with the provider timeout that bypasses the local cache. */
  function FreshRequest(url: string): (r: Request)
    ensures r.url == url
    ensures r.cachePolicy == ReloadIgnoringLocalCacheData && r.timeoutInterval == ProviderTimeout
  {
    Request(url, ReloadIgnoringLocalCacheData, ProviderTimeout)
  }

  function HostRequest(base: string, quote: string): Request
  {
    FreshRequest(HostUrl(base, quote))
  }

  function ERAPIRequest(base: string): Request
  {
    FreshRequest(ERAPIUrl(base))
  }

  /** The Host request names the base and the wanted symbol as query
      parameters, and nothing else is in its path. */
  lemma HostRequestCarriesPair(base: string, quote: string)
    requires UrlSafe(base) && UrlSafe(quote)
    ensures HostRequest(base, quote).cachePolicy == ReloadIgnoringLocalCacheData
    ensures HostRequest(base, quote).timeoutInterval == 8.0
    ensures Path(HostRequest(base, quote).url) == HostEndpoint
    ensures Query(HostRequest(base, quote).url) == Some("base=" + base + "&symbols=" + quote)
    ensures QueryParam(HostRequest(base, quote).url, "base") == Some(base)
    ensures QueryParam(HostRequest(base, quote).url, "symbols") == Some(quote)
  {
    var url := HostRequest(base, quote).url;
    assert url == HostUrl(base, quote);
    assert Path(url) == HostEndpoint && QueryParam(url, "base") == Some(base)
        && QueryParam(url, "symbols") == Some(quote) by {
      HostUrlReadsBack(base, quote);
    }
    assert Query(url) == Some("base=" + base + "&symbols=" + quote) by {
      HostQueryIsPair(base, quote);
    }
  }

  /** A server reading the Host URL finds its endpoint path and both
      parameters. */
  lemma HostUrlReadsBack(base: string, quote: string)
    requires UrlSafe(base) && UrlSafe(quote)
    ensures Path(HostUrl(base, quote)) == HostEndpoint
    ensures QueryParam(HostUrl(base, quote), "base") == Some(base)
    ensures QueryParam(HostUrl(base, quote), "symbols") == Some(quote)
  {
    var url := HostUrl(base, quote);
    assert "https://api.exchangerate.host/latest?base=" == HostEndpoint + "?" + "base" + "=";
    assert "&symbols=" == "&" + "symbols" + "=";
    assert url == HostEndpoint + "?" + "base" + "=" + base + "&" + "symbols" + "=" + quote;
    assert NoDelimiter(base) && NoDelimiter(quote);
    assert NoDelimiter("base") && NoDelimiter("symbols");
    assert "base" != "symbols" by { assert "base"[0] != "symbols"[0]; }
    TwoParameterUrl(url, HostEndpoint, "base", base, "symbols", quote);
  }

  /** The Host query is exactly `base=<base>&symbols=<quote>`: nothing else
      is asked for. */
  lemma HostQueryIsPair(base: string, quote: string)
    requires UrlSafe(base) && UrlSafe(quote)
    ensures Query(HostUrl(base, quote)) == Some("base=" + base + "&symbols=" + quote)
    ensures '#' !in HostUrl(base, quote)
  {
    var query := "base=" + base + "&symbols=" + quote;
    assert HostUrl(base, quote) == HostEndpoint + "?" + query;
    assert '#' !in base && '#' !in quote;
    assert '#' !in query;
    UrlWithQuery(HostUrl(base, quote), HostEndpoint, query);
  }

  /** The ER-API request names only the base, as the last path segment; it
      has no query, so the quote is not sent and the whole table comes back. */
  lemma ERAPIRequestCarriesBase(base: string)
    requires UrlSafe(base)
    ensures ERAPIRequest(base).cachePolicy == ReloadIgnoringLocalCacheData
    ensures ERAPIRequest(base).timeoutInterval == 8.0
    ensures Path(ERAPIRequest(base).url) == ERAPIEndpoint + "/" + base
    ensures Query(ERAPIRequest(base).url) == None
    ensures LastSegment(ERAPIRequest(base).url) == base
    ensures QueryParam(ERAPIRequest(base).url, "symbols") == None
    ensures QueryParam(ERAPIRequest(base).url, "base") == None
  {
    var url := ERAPIRequest(base).url;
    assert url == ERAPIEndpoint + "/" + base;
    assert NoDelimiter(base);
    SegmentUrl(url, ERAPIEndpoint, base);
  }

  // ---------------------------------------------------------------------------
  // One provider call

  /** After the network call: the status guard, the decode and the lookup
      that both providers share. */
  function ReadRate(outcome: Outcome, quote: string): (r: ProviderResult)
    ensures r == Threw(TransportFailed) <==> outcome.TransportError?
    ensures r == Threw(DecodeFailed) <==>
              outcome.Response? && outcome.statusCode == Some(200) && outcome.body.Malformed?
    ensures outcome.Response? && outcome.statusCode != Some(200) ==> r == Returned(None)
    ensures r.Returned? && r.rate.Some? <==> Serves(outcome, quote)
    ensures r.Returned? && r.rate.Some? ==> Supplies(outcome, quote, r.rate.value)
  {
    match outcome
    case TransportError => Threw(TransportFailed)
    case Response(status, body) =>
      if status != Some(200) then Returned(None)
      else
        match body
        case Malformed => Threw(DecodeFailed)
        case Rates(rates) => Returned(if quote in rates then Some(rates[quote]) else None)
  }

  /** The Host provider: one request, then the shared reading of its outcome.
      Its answer is decided by the outcome of that one request. */
  function FetchFromHost(transport: Transport, base: string, quote: string): (r: ProviderResult)
    ensures Attempt(r).Some? <==> Serves(transport(HostRequest(base, quote)), quote)
    ensures Attempt(r).Some? ==> Supplies(transport(HostRequest(base, quote)), quote, Attempt(r).value)
    ensures r.Threw? <==> transport(HostRequest(base, quote)).TransportError? ||
                          (transport(HostRequest(base, quote)).statusCode == Some(200) &&
                           transport(HostRequest(base, quote)).body.Malformed?)
  {
    ReadRate(transport(HostRequest(base, quote)), quote)
  }

  /** The ER-API provider: one request that names only the base, then the
      same reading of its outcome, which picks `quote` from the whole table. */
  function FetchFromERAPI(transport: Transport, base: string, quote: string): (r: ProviderResult)
    ensures Attempt(r).Some? <==> Serves(transport(ERAPIRequest(base)), quote)
    ensures Attempt(r).Some? ==> Supplies(transport(ERAPIRequest(base)), quote, Attempt(r).value)
    ensures r.Threw? <==> transport(ERAPIRequest(base)).TransportError? ||
                          (transport(ERAPIRequest(base)).statusCode == Some(200) &&
                           transport(ERAPIRequest(base)).body.Malformed?)
  {
    ReadRate(transport(ERAPIRequest(base)), quote)
  }

  /** A provider call under `try?`: a throw and a `nil` both become `None`. */
  function Attempt(p: ProviderResult): (r: Option<Rate>)
    ensures p.Threw? ==> r == None
    ensures p.Returned? ==> r == p.rate
  {
    match p
    case Threw(_) => None
    case Returned(rate) => rate
  }

  // ---------------------------------------------------------------------------
  // The fallback policy

  /** Host first, then ER-API; the first rate wins, and `BadData` when neither
      yields one. Provider errors never escape. */
  function Fetch(transport: Transport, base: string := "AUD", quote: string := "NPR"): (r: Result<Rate, FetchError>)
    ensures Serves(transport(HostRequest(base, quote)), quote) ==>
              r == Ok(transport(HostRequest(base, quote)).body.rates[quote])
    ensures !Serves(transport(HostRequest(base, quote)), quote) && Serves(transport(ERAPIRequest(base)), quote) ==>
              r == Ok(transport(ERAPIRequest(base)).body.rates[quote])
    ensures r.Err? <==>
              !Serves(transport(HostRequest(base, quote)), quote) && !Serves(transport(ERAPIRequest(base)), quote)
  {
    match Attempt(FetchFromHost(transport, base, quote))
    case Some(v) => Ok(v)
    case None =>
      match Attempt(FetchFromERAPI(transport, base, quote))
      case Some(v) => Ok(v)
      case None => Err(BadData)
  }

  /** A successful fetch returns the rate of one provider's outcome, whole;
      ER-API's only when Host did not serve the quote. */
  lemma FetchRateHasOneSource(transport: Transport, base: string, quote: string, v: Rate)
    requires Fetch(transport, base, quote) == Ok(v)
    ensures Supplies(transport(HostRequest(base, quote)), quote, v) ||
            (!Serves(transport(HostRequest(base, quote)), quote) && Supplies(transport(ERAPIRequest(base)), quote, v))
  {
  }

  /** Once Host serves the quote, what the network would say to the ER-API
      request does not matter: any transport that agrees on the Host request
      gives the same result. */
  lemma HostAnswerSettlesFetch(t1: Transport, t2: Transport, base: string, quote: string)
    requires Serves(t1(HostRequest(base, quote)), quote)
    requires t2(HostRequest(base, quote)) == t1(HostRequest(base, quote))
    ensures Fetch(t1, base, quote) == Fetch(t2, base, quote)
  {
  }

  /** Under `try?` a Host call that throws counts as one that returns `nil`:
      with the same ER-API outcome, the fetch ends the same way. */
  lemma HostThrowActsAsNil(t1: Transport, t2: Transport, base: string, quote: string)
    requires FetchFromHost(t1, base, quote).Threw?
    requires FetchFromHost(t2, base, quote) == Returned(None)
    requires t1(ERAPIRequest(base)) == t2(ERAPIRequest(base))
    ensures Fetch(t1, base, quote) == Fetch(t2, base, quote)
  {
  }

  /** The fetch as the sequence of calls it makes. `sent` records every
      request handed to the transport, in order. */
  method FetchLogged(transport: Transport, base: string, quote: string)
    returns (r: Result<Rate, FetchError>, ghost sent: seq<Request>)
    ensures r == Fetch(transport, base, quote)
    ensures |sent| >= 1 && sent[0] == HostRequest(base, quote)
    ensures Serves(transport(HostRequest(base, quote)), quote) ==> sent == [HostRequest(base, quote)]
    ensures !Serves(transport(HostRequest(base, quote)), quote) ==>
              sent == [HostRequest(base, quote), ERAPIRequest(base)]
  {
    sent := [];
    var hostRequest := HostRequest(base, quote);
    var hostOutcome := transport(hostRequest);
    sent := sent + [hostRequest];
    var hostRate := Attempt(ReadRate(hostOutcome, quote));
    if hostRate.Some? {
      r := Ok(hostRate.value);
      return;
    }
    var erRequest := ERAPIRequest(base);
    var erOutcome := transport(erRequest);
    sent := sent + [erRequest];
    var erRate := Attempt(ReadRate(erOutcome, quote));
    if erRate.Some? {
      r := Ok(erRate.value);
      return;
    }
    r := Err(BadData);
  }

  // ---------------------------------------------------------------------------
  // Worked cases for the AUD/NPR pair the widget asks for

  /** Host answers 88.77 at status 200: that is the result. */
  lemma HostAnswersScenario()
    ensures Fetch(req => if req == HostRequest("AUD", "NPR")
                         then Response(Some(200), Rates(map["NPR" := 88.77]))
                         else TransportError) == Ok(88.77)
  {
  }

  /** Host times out, ER-API returns its whole table: NPR is picked from it. */
  lemma HostTimesOutScenario()
    ensures Fetch(req => if req == ERAPIRequest("AUD")
                         then Response(Some(200), Rates(map["NPR" := 88.50, "USD" := 0.65]))
                         else TransportError) == Ok(88.50)
  {
  }

  /** Host's table lacks NPR, so ER-API's rate is used. */
  lemma HostLacksQuoteScenario()
    ensures Fetch(req => if req == HostRequest("AUD", "NPR")
                         then Response(Some(200), Rates(map[]))
                         else Response(Some(200), Rates(map["NPR" := 88.50]))) == Ok(88.50)
  {
  }

  /** Both providers answer 500: the fetch fails with `BadData`. */
  lemma BothFailScenario()
    ensures Fetch(req => Response(Some(500), Rates(map["NPR" := 88.50]))) == Err(BadData)
  {
  }
}
