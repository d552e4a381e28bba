/** The browser's `ExchangeApiService`: one fixed-window limiter per exchange,
    checked before a price is fetched and counted only when the fetch gave a
    price; Coinbase and Kraken are read straight from their REST answers
    through the proxy client, Binance through `BinanceApiService`. */
module ExchangeApi {
  import opened Js
  import opened Http
  import ProxyClient
  import BinanceRest
  import W = WindowRateLimiter

  const BINANCE_WEIGHT_LIMIT: int := 1200
  const COINBASE_REQUEST_LIMIT: int := 10000
  const KRAKEN_TIER_1_LIMIT: int := 15
  const WINDOW_MS: int := 60000

  const INVALID_COINBASE_FORMAT := "Invalid Coinbase response format"
  const INVALID_COINBASE_PRICE := "Invalid price data from Coinbase"
  const INVALID_KRAKEN_PRICE := "Invalid price data from Kraken"
  const COINBASE_ERROR := "Error fetching COINBASE price: "
  const KRAKEN_ERROR := "Error fetching KRAKEN price: "
  /** `rateLimiters[exchange]` is undefined for any other name. */
  const NO_LIMITER := TypeErrorMessage(JUndefined, "canMakeRequest")

  function RateLimitExceeded(exchange: string): string {
    "Rate limit exceeded for " + exchange
  }

  function KrakenApiError(first: Json): string {
    "Kraken API error: " + Show(first)
  }

  /** `data?.data?.amount` */
  function SpotAmount(data: Json): Json {
    OptGet(OptGet(data, "data"), "amount")
  }

  /** The checks of `fetchCoinbasePrice` on the parsed body: a falsy amount
      is malformed, and the amount must parse to a positive number. */
  function CoinbaseBodyPrice(pf: FloatParser, data: Json): (r: Result<real>)
    ensures !Truthy(pf, SpotAmount(data)) ==> r == Err(INVALID_COINBASE_FORMAT)
    ensures r.Ok? <==> Truthy(pf, SpotAmount(data)) && IsPositive(ParseFloat(pf, SpotAmount(data)))
    ensures r.Ok? ==> r.value > 0.0 && ParseFloat(pf, SpotAmount(data)) == Num(r.value)
    ensures r.Err? ==> r == Err(INVALID_COINBASE_FORMAT) || r == Err(INVALID_COINBASE_PRICE)
  {
    var amount := SpotAmount(data);
    if !Truthy(pf, amount) then Err(INVALID_COINBASE_FORMAT)
    else
      var price := ParseFloat(pf, amount);
      if IsPositive(price) then Ok(price.value) else Err(INVALID_COINBASE_PRICE)
  }

  /** `result?.XXBTZUSD?.c?.[0]` */
  function KrakenLastTrade(result: Json): Json {
    OptAt(OptGet(OptGet(result, "XXBTZUSD"), "c"), 0)
  }

  /** The checks of `fetchKrakenPrice` on the parsed body: reading `error` of
      a null body throws, a non-empty `error` list is reported with its first
      entry, and the XXBTZUSD last trade must parse to a positive number. */
  function KrakenBodyPrice(pf: FloatParser, data: Json): (r: Result<real>)
    ensures data.JNull? || data.JUndefined? ==> r == Err(TypeErrorMessage(data, "error"))
    ensures !data.JNull? && !data.JUndefined? && HasItems(OptGet(data, "error")) ==>
      r == Err(KrakenApiError(OptAt(OptGet(data, "error"), 0)))
    ensures r.Ok? <==>
      !data.JNull? && !data.JUndefined? && !HasItems(OptGet(data, "error"))
      && IsPositive(ParseFloat(pf, KrakenLastTrade(OptGet(data, "result"))))
    ensures r.Ok? ==> r.value > 0.0 && ParseFloat(pf, KrakenLastTrade(OptGet(data, "result"))) == Num(r.value)
  {
    match Get(data, "error")
    case Err(m) => Err(m)
    case Ok(error) =>
      if HasItems(error) then Err(KrakenApiError(OptAt(error, 0)))
      else
        var price := ParseFloat(pf, KrakenLastTrade(OptGet(data, "result")));
        if IsPositive(price) then Ok(price.value) else Err(INVALID_KRAKEN_PRICE)
  }

  /** A fetcher's whole answer: the retried fetch, the body and the checks,
      every failure rethrown under the exchange's prefix. */
  function Read(pf: FloatParser, fetched: Result<Response>, check: Json -> Result<real>, prefix: string): (r: Result<real>)
    ensures fetched.Err? ==> r == Err(prefix + fetched.message)
    ensures fetched.Ok? && BodyJson(fetched.value).Err? ==> r == Err(prefix + BodyJson(fetched.value).message)
    ensures fetched.Ok? && BodyJson(fetched.value).Ok? && check(BodyJson(fetched.value).value).Ok? ==>
      r == check(BodyJson(fetched.value).value)
    ensures r.Ok? ==> fetched.Ok? && BodyJson(fetched.value).Ok? && r == check(BodyJson(fetched.value).value)
    ensures r.Err? ==> |r.message| >= |prefix| && r.message[..|prefix|] == prefix
  {
    var checked :=
      match fetched
      case Err(m) => Err(m)
      case Ok(response) =>
        match BodyJson(response)
        case Err(m) => Err(m)
        case Ok(data) => check(data);
    match checked
    case Ok(price) => Ok(price)
    case Err(m) => Err(prefix + m)
  }

  /** `fetchCoinbasePrice` when fetch `j` answers `answers(j)`. */
  function CoinbasePrice(pf: FloatParser, answers: ProxyClient.Answers, start: nat, retries: nat): Result<real> {
    Read(pf, ProxyClient.RetryResult(answers, start, retries), data => CoinbaseBodyPrice(pf, data), COINBASE_ERROR)
  }

  /** `fetchKrakenPrice` when fetch `j` answers `answers(j)`. */
  function KrakenPrice(pf: FloatParser, answers: ProxyClient.Answers, start: nat, retries: nat): Result<real> {
    Read(pf, ProxyClient.RetryResult(answers, start, retries), data => KrakenBodyPrice(pf, data), KRAKEN_ERROR)
  }

  /** An `error` list with an entry fails the call whatever the result holds. */
  lemma KrakenErrorWins(pf: FloatParser, fields: map<string, Json>, message: string)
    requires "error" in fields && fields["error"] == JArray([JString(message)])
    ensures KrakenBodyPrice(pf, JObject(fields)) == Err("Kraken API error: " + message)
  {
    assert OptAt(OptGet(JObject(fields), "error"), 0) == JString(message);
  }

  /** A Kraken ticker answer with an empty `error` list yields the last trade price. */
  lemma KrakenBodyExample(pf: FloatParser)
    requires pf("65000.5") == Num(130001.0 / 2.0)
    ensures KrakenBodyPrice(pf, JObject(map[
      "error" := JArray([]),
      "result" := JObject(map["XXBTZUSD" := JObject(map["c" := JArray([JString("65000.5"), JString("1")])])])]))
      == Ok(130001.0 / 2.0)
  {
    var trade := JObject(map["c" := JArray([JString("65000.5"), JString("1")])]);
    assert KrakenLastTrade(JObject(map["XXBTZUSD" := trade])) == JString("65000.5");
  }

  /** A Coinbase spot answer yields its amount; one without `data.amount` is malformed. */
  lemma CoinbaseBodyExamples(pf: FloatParser)
    requires pf("65000.5") == Num(130001.0 / 2.0)
    ensures CoinbaseBodyPrice(pf, JObject(map["data" := JObject(map["base" := JString("BTC")])]))
      == Err(INVALID_COINBASE_FORMAT)
    ensures CoinbaseBodyPrice(pf, JObject(map["data" := JObject(map["amount" := JString("65000.5")])]))
      == Ok(130001.0 / 2.0)
  {
    assert SpotAmount(JObject(map["data" := JObject(map["amount" := JString("65000.5")])])) == JString("65000.5");
  }

  /** The three names `rateLimiters` has a limiter for. */
  predicate Known(exchange: string) {
    exchange == "BINANCE" || exchange == "COINBASE" || exchange == "KRAKEN"
  }

  /** A number result that carries the price, or the message, of `p`. */
  predicate SamePrice(r: Result<Float>, p: Result<real>) {
    && (r.Ok? <==> p.Ok?)
    && (r.Ok? ==> r.value == Num(p.value))
    && (r.Err? ==> r.message == p.message)
  }

  /** What the fetcher an exchange is routed to yields. */
  function Routed(pf: FloatParser, exchange: string, answers: ProxyClient.Answers, start: nat, retries: nat): (r: Result<Float>)
    requires Known(exchange)
    ensures exchange == "BINANCE" ==> r == BinanceRest.Price(pf, answers, start, retries)
    ensures exchange == "COINBASE" ==> SamePrice(r, CoinbasePrice(pf, answers, start, retries))
    ensures exchange == "KRAKEN" ==> SamePrice(r, KrakenPrice(pf, answers, start, retries))
    ensures exchange != "BINANCE" && r.Ok? ==> IsPositive(r.value)
  {
    if exchange == "BINANCE" then BinanceRest.Price(pf, answers, start, retries)
    else
      var price := if exchange == "COINBASE" then CoinbasePrice(pf, answers, start, retries)
                   else KrakenPrice(pf, answers, start, retries);
      match price
      case Ok(p) => Ok(Num(p))
      case Err(m) => Err(m)
  }

  /** `corsProxyIndex` after the fetcher an exchange is routed to. */
  function RoutedIndex(pf: FloatParser, exchange: string, answers: ProxyClient.Answers, start: nat, retries: nat, index: nat): (i: nat)
    requires Known(exchange)
    ensures index < ProxyClient.PROXY_COUNT ==> i < ProxyClient.PROXY_COUNT
    ensures exchange != "BINANCE" ==> i == ProxyClient.RetryIndex(index, answers, start, retries)
  {
    if exchange == "BINANCE" then BinanceRest.ProxyIndex(pf, answers, start, retries, index)
    else ProxyClient.RetryIndex(index, answers, start, retries)
  }

  class ExchangeApiService {
    const binance: W.RateLimiter
    const coinbase: W.RateLimiter
    const kraken: W.RateLimiter
    /** The proxy client whose `corsProxyIndex` all the fetchers share. */
    const client: ProxyClient.BaseApiService

    ghost predicate Valid()
      reads this, client
    {
      && binance != coinbase && coinbase != kraken && binance != kraken
      && binance.limit == BINANCE_WEIGHT_LIMIT && binance.windowMs == WINDOW_MS
      && coinbase.limit == COINBASE_REQUEST_LIMIT && coinbase.windowMs == WINDOW_MS
      && kraken.limit == KRAKEN_TIER_1_LIMIT && kraken.windowMs == WINDOW_MS
      && client.Valid()
    }

    /** The limiters are created when the class is loaded, at `now`. */
    constructor(client: ProxyClient.BaseApiService, now: int)
      requires client.Valid()
      ensures Valid() && this.client == client
      ensures fresh(binance) && fresh(coinbase) && fresh(kraken)
      ensures binance.State() == W.Window(0, now) && coinbase.State() == W.Window(0, now)
      ensures kraken.State() == W.Window(0, now)
    {
      binance := new W.RateLimiter(BINANCE_WEIGHT_LIMIT, WINDOW_MS, now);
      coinbase := new W.RateLimiter(COINBASE_REQUEST_LIMIT, WINDOW_MS, now);
      kraken := new W.RateLimiter(KRAKEN_TIER_1_LIMIT, WINDOW_MS, now);
      this.client := client;
    }

    /** `rateLimiters[exchange]` for a known name. */
    function Limiter(exchange: string): (l: W.RateLimiter)
      requires Known(exchange)
      reads this
      ensures l == binance || l == coinbase || l == kraken
    {
      if exchange == "BINANCE" then binance else if exchange == "COINBASE" then coinbase else kraken
    }

    /** `fetchCoinbasePrice` */
    method FetchCoinbasePrice(pf: FloatParser, net: Network, start: nat, timeoutMs: nat, retries: nat,
                              intervalMs: real, backoff: real)
      returns (r: Result<real>, fetches: nat)
      requires client.Valid()
      modifies client
      ensures client.Valid()
      ensures r == CoinbasePrice(pf, ProxyClient.Checked(net, timeoutMs), start, retries)
      ensures fetches == ProxyClient.FetchesUntilOk(ProxyClient.Checked(net, timeoutMs), start, ProxyClient.Budget(retries))
      ensures client.corsProxyIndex == ProxyClient.RetryIndex(old(client.corsProxyIndex), ProxyClient.Checked(net, timeoutMs), start, retries)
    {
      var response, rounds, waits;
      response, fetches, rounds, waits := client.FetchWithRetry(net, start, timeoutMs, retries, intervalMs, backoff);
      ProxyClient.RetryOutcomeIsRetryResult(ProxyClient.Checked(net, timeoutMs), start, retries, rounds, fetches, response);
      r := Read(pf, response, data => CoinbaseBodyPrice(pf, data), COINBASE_ERROR);
    }

    /** `fetchKrakenPrice` */
    method FetchKrakenPrice(pf: FloatParser, net: Network, start: nat, timeoutMs: nat, retries: nat,
                            intervalMs: real, backoff: real)
      returns (r: Result<real>, fetches: nat)
      requires client.Valid()
      modifies client
      ensures client.Valid()
      ensures r == KrakenPrice(pf, ProxyClient.Checked(net, timeoutMs), start, retries)
      ensures fetches == ProxyClient.FetchesUntilOk(ProxyClient.Checked(net, timeoutMs), start, ProxyClient.Budget(retries))
      ensures client.corsProxyIndex == ProxyClient.RetryIndex(old(client.corsProxyIndex), ProxyClient.Checked(net, timeoutMs), start, retries)
    {
      var response, rounds, waits;
      response, fetches, rounds, waits := client.FetchWithRetry(net, start, timeoutMs, retries, intervalMs, backoff);
      ProxyClient.RetryOutcomeIsRetryResult(ProxyClient.Checked(net, timeoutMs), start, retries, rounds, fetches, response);
      r := Read(pf, response, data => KrakenBodyPrice(pf, data), KRAKEN_ERROR);
    }

    /** `fetchPrice(exchange)`: the limiter is checked at `now`; a refused
        check throws before anything is fetched, and the request is counted,
        at `doneAt`, only when a price came back. */
    method FetchPrice(exchange: string, now: int, doneAt: int, pf: FloatParser, net: Network, start: nat,
                      timeoutMs: nat, retries: nat, intervalMs: real, backoff: real)
      returns (r: Result<Float>, fetches: nat)
      requires Valid()
      modifies binance, coinbase, kraken, client
      ensures Valid()
      ensures !Known(exchange) ==> r == Err(NO_LIMITER) && fetches == 0
      ensures !Known(exchange) ==> unchanged(binance, coinbase, kraken, client)
      ensures Known(exchange) ==> forall l :: l in {binance, coinbase, kraken} - {Limiter(exchange)} ==> unchanged(l)
      ensures Known(exchange) && !W.Allowed(old(Limiter(exchange).State()), now, Limiter(exchange).limit, WINDOW_MS) ==>
        && r == Err(RateLimitExceeded(exchange)) && fetches == 0 && unchanged(client)
        && Limiter(exchange).State() == W.Reset(old(Limiter(exchange).State()), now, WINDOW_MS)
      ensures Known(exchange) && W.Allowed(old(Limiter(exchange).State()), now, Limiter(exchange).limit, WINDOW_MS) ==>
        && r == Routed(pf, exchange, ProxyClient.Checked(net, timeoutMs), start, retries)
        && client.corsProxyIndex == RoutedIndex(pf, exchange, ProxyClient.Checked(net, timeoutMs), start, retries, old(client.corsProxyIndex))
        && Limiter(exchange).State() == (
             var checked := W.Reset(old(Limiter(exchange).State()), now, WINDOW_MS);
             if r.Ok? then W.Increment(checked, doneAt, WINDOW_MS) else checked)
    {
      fetches := 0;
      if !Known(exchange) {
        r := Err(NO_LIMITER);
        return;
      }
      var limiter := Limiter(exchange);
      var allowed := limiter.CanMakeRequest(now);
      if !allowed {
        r := Err(RateLimitExceeded(exchange));
        return;
      }
      if exchange == "BINANCE" {
        r, fetches := BinanceRest.FetchPrice(client, pf, net, start, timeoutMs, retries, intervalMs, backoff);
      } else {
        var price;
        if exchange == "COINBASE" {
          price, fetches := FetchCoinbasePrice(pf, net, start, timeoutMs, retries, intervalMs, backoff);
        } else {
          price, fetches := FetchKrakenPrice(pf, net, start, timeoutMs, retries, intervalMs, backoff);
        }
        r := match price case Ok(p) => Ok(Num(p)) case Err(m) => Err(m);
      }
      if r.Ok? {
        limiter.IncrementRequests(doneAt);
      }
    }
  }
}
