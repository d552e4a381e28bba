/** The browser's `BinanceApiService`: the ticker-price endpoint through the
    proxy client, read and checked by `parseTickerResponse`, and on any failure
    the 24-hour-ticker endpoint, whose `lastPrice` is taken unchecked. */
module BinanceRest {
  import opened Js
  import opened Http
  import ProxyClient

  const INVALID_FORMAT := "Invalid Binance response format"
  const FETCH_ERROR := "Error fetching Binance price: "

  function InvalidValue(v: Json): string {
    "Invalid Binance price value: " + Show(v)
  }

  /** `data.price || data.lastPrice`: the first truthy of the two fields. */
  function TickerField(pf: FloatParser, data: Json): Json {
    if Truthy(pf, OptGet(data, "price")) then OptGet(data, "price") else OptGet(data, "lastPrice")
  }

  /** `parseTickerResponse`: a ticker without a truthy `price` or `lastPrice`
      is malformed; otherwise the preferred field must parse to a positive
      number. */
  function ParseTickerResponse(pf: FloatParser, data: Json): (r: Result<real>)
    ensures !Truthy(pf, OptGet(data, "price")) && !Truthy(pf, OptGet(data, "lastPrice")) ==> r == Err(INVALID_FORMAT)
    ensures r.Ok? <==>
      (Truthy(pf, OptGet(data, "price")) || Truthy(pf, OptGet(data, "lastPrice")))
      && IsPositive(ParseFloat(pf, TickerField(pf, data)))
    ensures r.Ok? ==> r.value > 0.0 && ParseFloat(pf, TickerField(pf, data)) == Num(r.value)
    ensures r.Ok? && Truthy(pf, OptGet(data, "price")) ==> ParseFloat(pf, OptGet(data, "price")) == Num(r.value)
    ensures r.Err? && r != Err(INVALID_FORMAT) ==> r == Err(InvalidValue(TickerField(pf, data)))
  {
    var price := OptGet(data, "price");
    var last := OptGet(data, "lastPrice");
    if !Truthy(pf, price) && !Truthy(pf, last) then Err(INVALID_FORMAT)
    else
      var value := if Truthy(pf, price) then price else last;
      var parsed := ParseFloat(pf, value);
      if IsPositive(parsed) then Ok(parsed.value) else Err(InvalidValue(value))
  }

  /** A truthy `price` decides the answer: `lastPrice` is then never read. */
  lemma PriceIsPreferred(pf: FloatParser, fields: map<string, Json>, last: Json)
    requires "price" in fields && Truthy(pf, fields["price"])
    ensures ParseTickerResponse(pf, JObject(fields["lastPrice" := last])) == ParseTickerResponse(pf, JObject(fields))
  {
    assert OptGet(JObject(fields["lastPrice" := last]), "price") == fields["price"];
  }

  /** The string "0" is truthy, so it passes the format test and is then
      refused as a price; a ticker with neither field is malformed. */
  lemma TickerExamples(pf: FloatParser)
    requires pf("0") == Num(0.0) && pf("65000.12") == Num(6500012.0 / 100.0)
    ensures ParseTickerResponse(pf, JObject(map["symbol" := JString("BTCUSDT"), "price" := JString("65000.12")]))
      == Ok(6500012.0 / 100.0)
    ensures ParseTickerResponse(pf, JObject(map["price" := JString("0")])) == Err("Invalid Binance price value: 0")
    ensures ParseTickerResponse(pf, JObject(map["symbol" := JString("BTCUSDT")])) == Err(INVALID_FORMAT)
    ensures ParseTickerResponse(pf, JNull) == Err(INVALID_FORMAT)
  {
    assert OptGet(JObject(map["price" := JString("0")]), "lastPrice") == JUndefined;
  }

  /** The primary endpoint: the retried fetch, the body, `parseTickerResponse`. */
  function PrimaryPrice(pf: FloatParser, fetched: Result<Response>): (r: Result<real>)
    ensures r.Ok? ==> r.value > 0.0
    ensures fetched.Err? ==> r == Err(fetched.message)
    ensures fetched.Ok? && BodyJson(fetched.value).Ok? ==> r == ParseTickerResponse(pf, BodyJson(fetched.value).value)
  {
    match fetched
    case Err(m) => Err(m)
    case Ok(response) =>
      match BodyJson(response)
      case Err(m) => Err(m)
      case Ok(data) => ParseTickerResponse(pf, data)
  }

  /** The fallback endpoint: `parseFloat(data.lastPrice)`, which may be NaN or
      not positive; only a null body makes the property access throw. */
  function FallbackPrice(pf: FloatParser, fetched: Result<Response>): (r: Result<Float>)
    ensures fetched.Err? ==> r == Err(fetched.message)
    ensures fetched.Ok? && BodyJson(fetched.value).Ok? ==>
      var data := BodyJson(fetched.value).value;
      r.Ok? <==> !data.JNull? && !data.JUndefined?
    ensures r.Ok? ==> fetched.Ok? && BodyJson(fetched.value).Ok?
    ensures r.Ok? ==> r.value == ParseFloat(pf, OptGet(BodyJson(fetched.value).value, "lastPrice"))
  {
    match fetched
    case Err(m) => Err(m)
    case Ok(response) =>
      match BodyJson(response)
      case Err(m) => Err(m)
      case Ok(data) =>
        match Get(data, "lastPrice")
        case Err(m) => Err(m)
        case Ok(last) => Ok(ParseFloat(pf, last))
  }

  /** What `fetchPrice` yields when fetch `j` answers `answers(j)`: a price
      from the primary endpoint, or else from the fallback, whose fetches
      follow the primary's; when both fail the error names the primary
      failure only. */
  function Price(pf: FloatParser, answers: ProxyClient.Answers, start: nat, retries: nat): (r: Result<Float>)
    ensures
      var primary := PrimaryPrice(pf, ProxyClient.RetryResult(answers, start, retries));
      var fallback := FallbackPrice(pf, ProxyClient.RetryResult(answers, start + PrimaryFetches(answers, start, retries), retries));
      && (primary.Ok? ==> r == Ok(Num(primary.value)))
      && (primary.Err? && fallback.Ok? ==> r == fallback)
      && (primary.Err? && fallback.Err? ==> r == Err(FETCH_ERROR + primary.message))
    ensures r.Ok? && !IsPositive(r.value) ==> PrimaryPrice(pf, ProxyClient.RetryResult(answers, start, retries)).Err?
  {
    var primary := PrimaryPrice(pf, ProxyClient.RetryResult(answers, start, retries));
    if primary.Ok? then Ok(Num(primary.value))
    else
      var fallback := FallbackPrice(pf, ProxyClient.RetryResult(answers, start + PrimaryFetches(answers, start, retries), retries));
      if fallback.Ok? then fallback else Err(FETCH_ERROR + primary.message)
  }

  /** The fetches the primary endpoint's `fetchWithRetry` makes. */
  function PrimaryFetches(answers: ProxyClient.Answers, start: nat, retries: nat): nat {
    ProxyClient.FetchesUntilOk(answers, start, ProxyClient.Budget(retries))
  }

  /** The fetches `fetchPrice` makes: the fallback is only asked when the
      primary endpoint gave no price. */
  function Fetches(pf: FloatParser, answers: ProxyClient.Answers, start: nat, retries: nat): (n: nat)
    ensures PrimaryPrice(pf, ProxyClient.RetryResult(answers, start, retries)).Ok? ==> n == PrimaryFetches(answers, start, retries)
    ensures n >= PrimaryFetches(answers, start, retries)
    ensures n <= 2 * ProxyClient.Budget(retries)
  {
    var first := PrimaryFetches(answers, start, retries);
    if PrimaryPrice(pf, ProxyClient.RetryResult(answers, start, retries)).Ok? then first
    else first + ProxyClient.FetchesUntilOk(answers, start + first, ProxyClient.Budget(retries))
  }

  /** `corsProxyIndex` after `fetchPrice`: the primary run moves it, and so
      does the fallback run when the primary gave no price. */
  function ProxyIndex(pf: FloatParser, answers: ProxyClient.Answers, start: nat, retries: nat, index: nat): (i: nat)
    ensures index < ProxyClient.PROXY_COUNT ==> i < ProxyClient.PROXY_COUNT
    ensures PrimaryPrice(pf, ProxyClient.RetryResult(answers, start, retries)).Ok? ==>
      i == ProxyClient.RetryIndex(index, answers, start, retries)
  {
    var afterPrimary := ProxyClient.RetryIndex(index, answers, start, retries);
    if PrimaryPrice(pf, ProxyClient.RetryResult(answers, start, retries)).Ok? then afterPrimary
    else ProxyClient.RetryIndex(afterPrimary, answers, start + PrimaryFetches(answers, start, retries), retries)
  }

  /** `fetchPrice`, through the proxy client `client`. */
  method FetchPrice(client: ProxyClient.BaseApiService, pf: FloatParser, net: Network, start: nat,
                    timeoutMs: nat, retries: nat, intervalMs: real, backoff: real)
    returns (price: Result<Float>, fetches: nat)
    requires client.Valid()
    modifies client
    ensures client.Valid()
    ensures price == Price(pf, ProxyClient.Checked(net, timeoutMs), start, retries)
    ensures fetches == Fetches(pf, ProxyClient.Checked(net, timeoutMs), start, retries)
    ensures client.corsProxyIndex == ProxyIndex(pf, ProxyClient.Checked(net, timeoutMs), start, retries, old(client.corsProxyIndex))
  {
    ghost var answers := ProxyClient.Checked(net, timeoutMs);
    var response, used, rounds, waits := client.FetchWithRetry(net, start, timeoutMs, retries, intervalMs, backoff);
    ProxyClient.RetryOutcomeIsRetryResult(answers, start, retries, rounds, used, response);
    var primary := PrimaryPrice(pf, response);
    if primary.Ok? {
      price, fetches := Ok(Num(primary.value)), used;
      return;
    }
    var response2, used2, rounds2, waits2 := client.FetchWithRetry(net, start + used, timeoutMs, retries, intervalMs, backoff);
    ProxyClient.RetryOutcomeIsRetryResult(answers, start + used, retries, rounds2, used2, response2);
    var fallback := FallbackPrice(pf, response2);
    price := if fallback.Ok? then fallback else Err(FETCH_ERROR + primary.message);
    fetches := used + used2;
  }
}
