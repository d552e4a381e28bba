/** The browser's `priceService`: read a price out of each exchange's REST
    answer, try a primary and then a fallback endpoint under one abort timer,
    and poll the three exchanges together, keeping the ones that answered. */
module PriceService {
  import opened Js
  import opened Http
  import opened ExchangeTypes

  /** The exchanges of `fetchExchangePrices`, in the order they are listed. */
  const EXCHANGES: seq<string> := ["Binance", "Coinbase", "Kraken"]
  const INVALID_PRICE := "Invalid price received"
  const INVALID_FALLBACK_PRICE := "Invalid price received from fallback endpoint"

  function StatusError(exchange: string, r: Response): string {
    exchange + " API returned " + NatToString(r.status) + ": " + r.statusText
  }

  function ParseFailure(exchange: string): string {
    "Failed to parse " + exchange + " response"
  }

  function BothFailed(exchange: string, primary: string, fallback: string): string {
    "Both primary and fallback endpoints failed for " + exchange
    + ". Primary: " + primary + ", Fallback: " + fallback
  }

  /** The Binance case: `data.price` parsed when it is truthy, else null. */
  function BinanceValue(pf: FloatParser, data: Json): (r: Result<Option<Float>>)
    ensures r.Err? <==> data.JNull? || data.JUndefined?
    ensures r.Ok? && r.value.Some? ==> Truthy(pf, OptGet(data, "price")) && r.value.value == ParseFloat(pf, OptGet(data, "price"))
    ensures r.Ok? && r.value.None? ==> !Truthy(pf, OptGet(data, "price"))
  {
    match Get(data, "price")
    case Err(m) => Err(m)
    case Ok(price) => Ok(if Truthy(pf, price) then Some(ParseFloat(pf, price)) else None)
  }

  /** The spot answer's `data.data?.amount`. */
  function Amount(data: Json): Json {
    OptGet(OptGet(data, "data"), "amount")
  }

  /** The exchange-rates answer's `data.data?.rates?.USD`. */
  function UsdRate(data: Json): Json {
    OptGet(OptGet(OptGet(data, "data"), "rates"), "USD")
  }

  /** The Coinbase case: the spot answer's amount, else the reciprocal of the
      exchange-rates answer's USD rate, else null. */
  function CoinbaseValue(pf: FloatParser, data: Json): (r: Result<Option<Float>>)
    ensures r.Err? <==> data.JNull? || data.JUndefined?
    ensures r.Ok? && Truthy(pf, Amount(data)) ==> r.value == Some(ParseFloat(pf, Amount(data)))
    ensures r.Ok? && !Truthy(pf, Amount(data)) && Truthy(pf, UsdRate(data)) ==>
      r.value == Some(Reciprocal(ParseFloat(pf, UsdRate(data))))
    ensures r.Ok? ==> (r.value.None? <==> !Truthy(pf, Amount(data)) && !Truthy(pf, UsdRate(data)))
  {
    match Get(data, "data")
    case Err(m) => Err(m)
    case Ok(inner) =>
      var amount := OptGet(inner, "amount");
      var usd := OptGet(OptGet(inner, "rates"), "USD");
      if Truthy(pf, amount) then Ok(Some(ParseFloat(pf, amount)))
      else if Truthy(pf, usd) then Ok(Some(Reciprocal(ParseFloat(pf, usd))))
      else Ok(None)
  }

  /** `data.result?.[pair]?.c?.[0]` */
  function KrakenLastTrade(data: Json, pair: string): Json {
    OptAt(OptGet(OptGet(OptGet(data, "result"), pair), "c"), 0)
  }

  /** The Kraken case: a non-empty `error` list throws; otherwise the last
      trade of XXBTZUSD when it is truthy, else that of XBT/USD, else null. */
  function KrakenValue(pf: FloatParser, data: Json): (r: Result<Option<Float>>)
    ensures data.JNull? || data.JUndefined? ==> r.Err?
    ensures HasItems(OptGet(data, "error")) ==> r.Err?
    ensures r.Err? ==> data.JNull? || data.JUndefined? || HasItems(OptGet(data, "error"))
    ensures r.Ok? && Truthy(pf, KrakenLastTrade(data, "XXBTZUSD")) ==>
      r.value == Some(ParseFloat(pf, KrakenLastTrade(data, "XXBTZUSD")))
    ensures r.Ok? && !Truthy(pf, KrakenLastTrade(data, "XXBTZUSD")) ==>
      r.value == (if Truthy(pf, KrakenLastTrade(data, "XBT/USD"))
                  then Some(ParseFloat(pf, KrakenLastTrade(data, "XBT/USD"))) else None)
  {
    match Get(data, "error")
    case Err(m) => Err(m)
    case Ok(error) =>
      if Truthy(pf, error) && HasItems(error) then Err(Show(OptAt(error, 0)))
      else
        var first := KrakenLastTrade(data, "XXBTZUSD");
        var price := if Truthy(pf, first) then first else KrakenLastTrade(data, "XBT/USD");
        Ok(if Truthy(pf, price) then Some(ParseFloat(pf, price)) else None)
  }

  /** `handleResponse`: a non-ok status throws before the body is read; any
      failure while reading or interpreting the body becomes one message;
      an exchange it does not know yields null. */
  function HandleResponse(pf: FloatParser, response: Response, exchange: string): (r: Result<Option<Float>>)
    ensures !IsOk(response) ==> r == Err(StatusError(exchange, response))
    ensures IsOk(response) && response.body.Malformed? ==> r == Err(ParseFailure(exchange))
    ensures IsOk(response) && r.Err? ==> r == Err(ParseFailure(exchange))
    ensures IsOk(response) && response.body.Parsed? && exchange !in EXCHANGES ==> r == Ok(None)
    ensures IsOk(response) && response.body.Parsed? && exchange == "Binance" ==>
      r == (var v := BinanceValue(pf, response.body.json); if v.Ok? then v else Err(ParseFailure(exchange)))
    ensures IsOk(response) && response.body.Parsed? && exchange == "Coinbase" ==>
      r == (var v := CoinbaseValue(pf, response.body.json); if v.Ok? then v else Err(ParseFailure(exchange)))
    ensures IsOk(response) && response.body.Parsed? && exchange == "Kraken" ==>
      r == (var v := KrakenValue(pf, response.body.json); if v.Ok? then v else Err(ParseFailure(exchange)))
  {
    if !IsOk(response) then Err(StatusError(exchange, response))
    else match response.body
      case Malformed(_) => Err(ParseFailure(exchange))
      case Parsed(data) =>
        var value :=
          if exchange == "Binance" then BinanceValue(pf, data)
          else if exchange == "Coinbase" then CoinbaseValue(pf, data)
          else if exchange == "Kraken" then KrakenValue(pf, data)
          else Ok(None);
        if value.Ok? then value else Err(ParseFailure(exchange))
  }

  /** The price test of `fetchWithRetry`: not null, not NaN and positive. */
  predicate Accepted(pf: FloatParser, exchange: string, o: FetchOutcome, budgetMs: nat) {
    && Fetch(o, budgetMs).Ok?
    && var handled := HandleResponse(pf, Fetch(o, budgetMs).value, exchange);
    && handled.Ok? && handled.value.Some? && IsPositive(handled.value.value)
  }

  /** One endpoint of `fetchWithRetry`: the fetch under what is left of the
      shared timer, the response handling and the price test. */
  function TryEndpoint(pf: FloatParser, exchange: string, o: FetchOutcome, budgetMs: nat, invalid: string): (r: Result<real>)
    ensures r.Ok? ==> r.value > 0.0
    ensures r.Ok? <==> Accepted(pf, exchange, o, budgetMs)
    ensures Fetch(o, budgetMs).Err? ==> r == Err(Fetch(o, budgetMs).message)
    ensures Fetch(o, budgetMs).Ok? && HandleResponse(pf, Fetch(o, budgetMs).value, exchange).Err? ==>
      r == Err(HandleResponse(pf, Fetch(o, budgetMs).value, exchange).message)
  {
    match Fetch(o, budgetMs)
    case Err(m) => Err(m)
    case Ok(response) =>
      match HandleResponse(pf, response, exchange)
      case Err(m) => Err(m)
      case Ok(price) =>
        if price.Some? && IsPositive(price.value) then Ok(price.value.value) else Err(invalid)
  }

  /** `fetchWithRetry(exchange, timeout)`: the primary endpoint, then the
      fallback. One abort timer covers both fetches, so the fallback only has
      what the primary left of `timeoutMs`. */
  function FetchWithRetry(pf: FloatParser, exchange: string, primary: FetchOutcome, fallback: FetchOutcome, timeoutMs: nat): (r: Result<real>)
    ensures r.Ok? ==> r.value > 0.0
    ensures TryEndpoint(pf, exchange, primary, timeoutMs, INVALID_PRICE).Ok? ==>
      r == TryEndpoint(pf, exchange, primary, timeoutMs, INVALID_PRICE)
    ensures TryEndpoint(pf, exchange, primary, timeoutMs, INVALID_PRICE).Err? ==>
      var second := TryEndpoint(pf, exchange, fallback, timeoutMs - Elapsed(primary, timeoutMs), INVALID_FALLBACK_PRICE);
      if second.Ok? then r == second
      else r == Err(BothFailed(exchange, TryEndpoint(pf, exchange, primary, timeoutMs, INVALID_PRICE).message, second.message))
  {
    var first := TryEndpoint(pf, exchange, primary, timeoutMs, INVALID_PRICE);
    if first.Ok? then first
    else
      var second := TryEndpoint(pf, exchange, fallback, timeoutMs - Elapsed(primary, timeoutMs), INVALID_FALLBACK_PRICE);
      if second.Ok? then second else Err(BothFailed(exchange, first.message, second.message))
  }

  /** A primary fetch that uses up the whole timer aborts the shared signal,
      so the fallback is aborted too and the call fails naming both aborts. */
  lemma PrimaryTimeoutAbortsFallback(pf: FloatParser, exchange: string, primary: FetchOutcome, fallback: FetchOutcome, timeoutMs: nat)
    requires primary.latencyMs >= timeoutMs
    ensures FetchWithRetry(pf, exchange, primary, fallback, timeoutMs)
      == Err(BothFailed(exchange, ABORT_MESSAGE, ABORT_MESSAGE))
  {
    assert Elapsed(primary, timeoutMs) == timeoutMs;
  }

  /** A non-ok primary response never stops the fallback from being used. */
  lemma FallbackAfterBadStatus(pf: FloatParser, exchange: string, primary: FetchOutcome, fallback: FetchOutcome, timeoutMs: nat)
    requires primary.Answered? && primary.latencyMs < timeoutMs && !IsOk(primary.response)
    ensures FetchWithRetry(pf, exchange, primary, fallback, timeoutMs).Ok? <==>
      TryEndpoint(pf, exchange, fallback, timeoutMs - primary.latencyMs, INVALID_FALLBACK_PRICE).Ok?
    ensures FetchWithRetry(pf, exchange, primary, fallback, timeoutMs).Err? ==>
      FetchWithRetry(pf, exchange, primary, fallback, timeoutMs) == Err(BothFailed(exchange,
        StatusError(exchange, primary.response),
        TryEndpoint(pf, exchange, fallback, timeoutMs - primary.latencyMs, INVALID_FALLBACK_PRICE).message))
  {
  }

  /** Every successful result is a positive price, as `fetchWithRetry` ensures. */
  predicate PositiveResults(results: seq<Result<real>>) {
    forall k :: 0 <= k < |results| && results[k].Ok? ==> results[k].value > 0.0
  }

  /** The successful results, in list order, as `results.forEach` pushes them. */
  function Fulfilled(results: seq<Result<real>>, now: nat): (r: seq<PolledPrice>)
    requires |results| <= |EXCHANGES| && PositiveResults(results)
    ensures |r| <= |results|
    ensures forall k :: 0 <= k < |r| ==> IsPositive(r[k].price) && r[k].lastUpdated == now
    ensures forall k :: 0 <= k < |r| ==> r[k].exchange in EXCHANGES
    ensures |r| == 0 <==> forall k :: 0 <= k < |results| ==> results[k].Err?
  {
    if |results| == 0 then []
    else
      var n := |results| - 1;
      Fulfilled(results[..n], now)
      + (if results[n].Ok? then [PolledPrice(EXCHANGES[n], Num(results[n].value), now)] else [])
  }

  /** The error line `fetchExchangePrices` records for a failed exchange. */
  function Label(k: nat, results: seq<Result<real>>): string
    requires k < |results| <= |EXCHANGES|
  {
    EXCHANGES[k] + ": " + (if results[k].Err? then results[k].message else "")
  }


  /** The error lines in the order the failures settled. */
  function Failures(results: seq<Result<real>>, order: seq<nat>): (r: seq<string>)
    requires |results| <= |EXCHANGES|
    requires forall j :: 0 <= j < |order| ==> order[j] < |results|
  {
    if |order| == 0 then []
    else
      var n := |order| - 1;
      Failures(results, order[..n]) + (if results[order[n]].Err? then [Label(order[n], results)] else [])
  }

  /** When every exchange failed, the message lists all of them, in the order
      their failures settled. */
  lemma {:induction false} AllFailuresListed(results: seq<Result<real>>, order: seq<nat>)
    requires |results| <= |EXCHANGES|
    requires forall j :: 0 <= j < |order| ==> order[j] < |results|
    requires forall k :: 0 <= k < |results| ==> results[k].Err?
    ensures |Failures(results, order)| == |order|
    ensures forall j :: 0 <= j < |order| ==> Failures(results, order)[j] == Label(order[j], results)
    decreases |order|
  {
    if |order| > 0 {
      var n := |order| - 1;
      AllFailuresListed(results, order[..n]);
      assert forall j :: 0 <= j < n ==> order[..n][j] == order[j];
    }
  }

  /** How `fetchExchangePrices` reports the settled results: the error lines
      in settle order, then the prices in list order, or the error when no
      exchange answered. */
  method Summarize(results: seq<Result<real>>, settleOrder: seq<nat>, now: nat) returns (r: Result<seq<PolledPrice>>)
    requires |results| == |EXCHANGES| && IsOrderOf(settleOrder, |EXCHANGES|) && PositiveResults(results)
    ensures r.Ok? <==> exists k :: 0 <= k < |results| && results[k].Ok?
    ensures r.Ok? ==> r.value == Fulfilled(results, now)
    ensures r.Err? ==> r.message == "Failed to fetch prices: " + Join(Failures(results, settleOrder), ", ")
  {
    var errors: seq<string> := [];
    for j := 0 to |settleOrder|
      invariant errors == Failures(results, settleOrder[..j])
    {
      var k := settleOrder[j];
      if results[k].Err? {
        errors := errors + [EXCHANGES[k] + ": " + results[k].message];
      }
      assert settleOrder[..j + 1][..j] == settleOrder[..j];
    }
    assert settleOrder[..|settleOrder|] == settleOrder;
    var prices: seq<PolledPrice> := [];
    for k := 0 to |results|
      invariant prices == Fulfilled(results[..k], now)
    {
      if results[k].Ok? {
        prices := prices + [PolledPrice(EXCHANGES[k], Num(results[k].value), now)];
      }
      assert results[..k + 1][..k] == results[..k];
    }
    assert results[..|results|] == results;
    if |prices| == 0 {
      r := Err("Failed to fetch prices: " + Join(errors, ", "));
    } else {
      r := Ok(prices);
    }
  }

  /** `fetchExchangePrices`. Each exchange is fetched with its own pair of
      outcomes, the first for the primary endpoint and the second for the
      fallback; `settleOrder` is the order in which the three calls settled,
      which decides the order of the error lines. */
  method FetchExchangePrices(pf: FloatParser, now: nat, timeoutMs: nat,
                             outcomes: seq<(FetchOutcome, FetchOutcome)>, settleOrder: seq<nat>)
    returns (r: Result<seq<PolledPrice>>, results: seq<Result<real>>)
    requires |outcomes| == |EXCHANGES| && IsOrderOf(settleOrder, |EXCHANGES|)
    ensures |results| == |EXCHANGES|
    ensures forall k :: 0 <= k < |results| ==>
      results[k] == FetchWithRetry(pf, EXCHANGES[k], outcomes[k].0, outcomes[k].1, timeoutMs)
    ensures r.Ok? <==> exists k :: 0 <= k < |results| && results[k].Ok?
    ensures PositiveResults(results)
    ensures r.Ok? ==> r.value == Fulfilled(results, now)
    ensures r.Err? ==> r.message == "Failed to fetch prices: " + Join(Failures(results, settleOrder), ", ")
  {
    results := seq(|EXCHANGES|, k requires 0 <= k < |EXCHANGES| =>
      FetchWithRetry(pf, EXCHANGES[k], outcomes[k].0, outcomes[k].1, timeoutMs));
    r := Summarize(results, settleOrder, now);
  }
}
