/** The browser's `ExchangeService`: a single instance that asks
    `ExchangeApiService.fetchPrice` for each of the three exchanges, records a
    NaN price for an exchange whose fetch throws, and sorts the records by
    exchange name. The records are pushed in the order the fetches settle,
    `settleOrder`; the k-th exchange's fetches are answered by `nets[k]`, and
    its request is counted at `doneAt[k]`. */
module ClientAggregator {
  import opened Js
  import opened Http
  import opened ExchangeTypes
  import Sorting
  import ProxyClient
  import ExchangeApi
  import W = WindowRateLimiter

  /** `exchanges`, declared in alphabetical order. */
  const EXCHANGES: seq<string> := ["BINANCE", "COINBASE", "KRAKEN"]

  /** The record pushed for an exchange: its price, or NaN when the fetch threw. */
  function Entry(exchange: string, r: Result<Float>, now: nat): PolledPrice {
    PolledPrice(exchange, if r.Ok? then r.value else NaN, now)
  }

  /** The sort's comparator, `a.exchange.localeCompare(b.exchange) < 0`. */
  predicate ByName(x: PolledPrice, y: PolledPrice) {
    StrLess(x.exchange, y.exchange)
  }

  lemma ByNameIsStrictWeakOrder()
    ensures Sorting.StrictWeakOrder(ByName)
  {
    forall x: PolledPrice, y: PolledPrice
      ensures ByName(x, y) ==> !ByName(y, x)
    {
      StrLessAsymmetric(x.exchange, y.exchange);
    }
    forall x: PolledPrice, y: PolledPrice, z: PolledPrice | !ByName(y, x) && !ByName(z, y)
      ensures !ByName(z, x)
    {
      NotStrLessTransitive(x.exchange, y.exchange, z.exchange);
    }
  }

  /** `exchanges` is in alphabetical order. */
  lemma ExchangesInOrder()
    ensures StrLess(EXCHANGES[0], EXCHANGES[1]) && StrLess(EXCHANGES[1], EXCHANGES[2])
    ensures StrLess(EXCHANGES[0], EXCHANGES[2])
  {
  }

  /** Three records with distinct names in increasing order have only one
      sorted arrangement. */
  lemma SortedThree(s: seq<PolledPrice>, x: PolledPrice, y: PolledPrice, z: PolledPrice)
    requires ByName(x, y) && ByName(y, z) && ByName(x, z)
    requires Sorting.SortedBy(s, ByName) && |s| == 3 && x in s && y in s && z in s
    ensures s == [x, y, z]
  {
    StrLessAsymmetric(x.exchange, y.exchange);
    StrLessAsymmetric(y.exchange, z.exchange);
    StrLessAsymmetric(x.exchange, z.exchange);
    assert !ByName(s[1], s[0]) && !ByName(s[2], s[0]) && !ByName(s[2], s[1]);
  }


  /** Whatever the settle order, each of the three values is pushed. */
  lemma SettledThree<T>(order: seq<nat>, v: seq<T>, pushed: seq<T>)
    requires IsOrderOf(order, 3) && |v| == 3
    requires |pushed| == 3 && forall i :: 0 <= i < 3 ==> pushed[i] == v[order[i]]
    ensures forall j :: 0 <= j < 3 ==> v[j] in pushed
  {
    forall j | 0 <= j < 3
      ensures v[j] in pushed
    {
      var i := if order[0] == j then 0 else if order[1] == j then 1 else 2;
      assert order[0] != order[1] && order[0] != order[2] && order[1] != order[2];
      assert pushed[i] == v[j];
    }
  }

  /** `prices.sort((a, b) => a.exchange.localeCompare(b.exchange))` */
  method SortByName(pushed: seq<PolledPrice>) returns (sorted: seq<PolledPrice>)
    ensures Sorting.SortedBy(sorted, ByName)
    ensures multiset(sorted) == multiset(pushed)
  {
    var a := new PolledPrice[|pushed|](i requires 0 <= i < |pushed| => pushed[i]);
    assert a[..] == pushed;
    ByNameIsStrictWeakOrder();
    Sorting.InsertionSort(a, ByName);
    sorted := a[..];
  }

  /** The records pushed in the order the fetches settle, then
      `prices.sort((a, b) => a.exchange.localeCompare(b.exchange))`: the
      result is in alphabetical order whatever the settle order. */
  method SettleAndSort(results: seq<Result<Float>>, settleOrder: seq<nat>, now: nat) returns (prices: seq<PolledPrice>)
    requires |results| == |EXCHANGES| && IsOrderOf(settleOrder, |EXCHANGES|)
    ensures Sorting.SortedBy(prices, ByName)
    ensures prices == [Entry(EXCHANGES[0], results[0], now), Entry(EXCHANGES[1], results[1], now),
                       Entry(EXCHANGES[2], results[2], now)]
  {
    var entries := seq(|EXCHANGES|, k requires 0 <= k < |EXCHANGES| => Entry(EXCHANGES[k], results[k], now));
    var pushed: seq<PolledPrice> := [];
    for i := 0 to |EXCHANGES|
      invariant |pushed| == i
      invariant forall j :: 0 <= j < i ==> pushed[j] == entries[settleOrder[j]]
    {
      var k := settleOrder[i];
      pushed := pushed + [Entry(EXCHANGES[k], results[k], now)];
    }
    SettledThree(settleOrder, entries, pushed);
    prices := SortByName(pushed);
    assert forall j :: 0 <= j < 3 ==> entries[j] in multiset(prices);
    ExchangesInOrder();
    SortedThree(prices, entries[0], entries[1], entries[2]);
  }

  /** What `fetchPrice(EXCHANGES[k])` yields when its limiter holds `w` at
      `now`: the routed fetcher's result, or the rate-limit error. */
  function Fetched(pf: FloatParser, k: nat, limit: int, w: W.Window, now: int, answers: ProxyClient.Answers,
                   retries: nat): Result<Float>
    requires k < |EXCHANGES|
  {
    if W.Allowed(w, now, limit, ExchangeApi.WINDOW_MS)
    then ExchangeApi.Routed(pf, EXCHANGES[k], answers, 0, retries)
    else Err(ExchangeApi.RateLimitExceeded(EXCHANGES[k]))
  }

  class ExchangeService {
    /** The static `ExchangeApiService` the instance calls. */
    const api: ExchangeApi.ExchangeApiService

    ghost predicate Valid()
      reads this, api, api.client
    {
      api.Valid()
    }

    constructor(api: ExchangeApi.ExchangeApiService)
      requires api.Valid()
      ensures Valid() && this.api == api
    {
      this.api := api;
    }

    /** The limiter of `EXCHANGES[k]`. */
    function Lim(k: nat): (l: W.RateLimiter)
      requires k < |EXCHANGES|
    {
      if k == 0 then api.binance else if k == 1 then api.coinbase else api.kraken
    }

    /** Every limiter's count is within its limit. */
    ghost predicate WithinLimits()
      reads api.binance, api.coinbase, api.kraken
    {
      forall k :: 0 <= k < |EXCHANGES| ==> Lim(k).requestCount <= Lim(k).limit
    }

    /** The map callback's `ExchangeApiService.fetchPrice(exchange)` for `EXCHANGES[k]`. */
    method FetchOne(k: nat, now: nat, doneAt: int, pf: FloatParser, net: Network,
                    timeoutMs: nat, retries: nat, intervalMs: real, backoff: real)
      returns (r: Result<Float>)
      requires Valid() && k < |EXCHANGES|
      modifies api.binance, api.coinbase, api.kraken, api.client
      ensures Valid()
      ensures r == Fetched(pf, k, Lim(k).limit, old(Lim(k).State()), now, ProxyClient.Checked(net, timeoutMs), retries)
      ensures Lim(k).State() == W.AfterCall(old(Lim(k).State()), W.Call(now, doneAt, r.Ok?), Lim(k).limit, ExchangeApi.WINDOW_MS)
      ensures forall j :: 0 <= j < |EXCHANGES| && j != k ==> Lim(j).State() == old(Lim(j).State())
    {
      assert ExchangeApi.Known(EXCHANGES[k]) && api.Limiter(EXCHANGES[k]) == Lim(k);
      ghost var others := {api.binance, api.coinbase, api.kraken} - {Lim(k)};
      assert forall j :: 0 <= j < |EXCHANGES| && j != k ==> Lim(j) in others;
      var fetches;
      r, fetches := api.FetchPrice(EXCHANGES[k], now, doneAt, pf, net, 0, timeoutMs, retries, intervalMs, backoff);
    }

    /** The three `fetchPrice` calls `fetchAllPrices` makes, one per exchange. */
    method FetchEach(now: nat, doneAt: seq<int>, pf: FloatParser, nets: seq<Network>,
                     timeoutMs: nat, retries: nat, intervalMs: real, backoff: real)
      returns (results: seq<Result<Float>>)
      requires Valid()
      requires |doneAt| == |EXCHANGES| && |nets| == |EXCHANGES|
      modifies api.binance, api.coinbase, api.kraken, api.client
      ensures Valid()
      ensures |results| == |EXCHANGES|
      ensures forall k :: 0 <= k < |EXCHANGES| ==>
        results[k] == Fetched(pf, k, Lim(k).limit, old(Lim(k).State()), now, ProxyClient.Checked(nets[k], timeoutMs), retries)
      ensures forall k :: 0 <= k < |EXCHANGES| ==>
        Lim(k).State() == W.AfterCall(old(Lim(k).State()), W.Call(now, doneAt[k], results[k].Ok?), Lim(k).limit, ExchangeApi.WINDOW_MS)
      ensures old(WithinLimits()) ==> WithinLimits()
    {
      results := [];
      for k := 0 to |EXCHANGES|
        invariant api.Valid()
        invariant |results| == k
        invariant forall j :: 0 <= j < k ==>
          results[j] == Fetched(pf, j, Lim(j).limit, old(Lim(j).State()), now, ProxyClient.Checked(nets[j], timeoutMs), retries)
        invariant forall j :: 0 <= j < k ==>
          Lim(j).State() == W.AfterCall(old(Lim(j).State()), W.Call(now, doneAt[j], results[j].Ok?), Lim(j).limit, ExchangeApi.WINDOW_MS)
        invariant forall j :: k <= j < |EXCHANGES| ==> Lim(j).State() == old(Lim(j).State())
      {
        var r := FetchOne(k, now, doneAt[k], pf, nets[k], timeoutMs, retries, intervalMs, backoff);
        results := results + [r];
      }
      if old(WithinLimits()) {
        forall k | 0 <= k < |EXCHANGES|
          ensures Lim(k).requestCount <= Lim(k).limit
        {
          assert old(Lim(k).State()).requestCount <= Lim(k).limit;
        }
      }
    }

    /** `fetchAllPrices`: it never throws; `results[k]` is what
        `fetchPrice(EXCHANGES[k])` yielded, and the records come out in
        alphabetical order whatever order the fetches settled in. */
    method FetchAllPrices(now: nat, doneAt: seq<int>, settleOrder: seq<nat>, pf: FloatParser, nets: seq<Network>,
                          timeoutMs: nat, retries: nat, intervalMs: real, backoff: real)
      returns (prices: seq<PolledPrice>, results: seq<Result<Float>>)
      requires Valid()
      requires |doneAt| == |EXCHANGES| && |nets| == |EXCHANGES| && IsOrderOf(settleOrder, |EXCHANGES|)
      modifies api.binance, api.coinbase, api.kraken, api.client
      ensures Valid()
      ensures |results| == |EXCHANGES|
      ensures forall k :: 0 <= k < |EXCHANGES| ==>
        results[k] == Fetched(pf, k, Lim(k).limit, old(Lim(k).State()), now, ProxyClient.Checked(nets[k], timeoutMs), retries)
      ensures forall k :: 0 <= k < |EXCHANGES| ==>
        Lim(k).State() == W.AfterCall(old(Lim(k).State()), W.Call(now, doneAt[k], results[k].Ok?), Lim(k).limit, ExchangeApi.WINDOW_MS)
      ensures old(WithinLimits()) ==> WithinLimits()
      ensures Sorting.SortedBy(prices, ByName)
      ensures prices == [Entry(EXCHANGES[0], results[0], now), Entry(EXCHANGES[1], results[1], now),
                         Entry(EXCHANGES[2], results[2], now)]
    {
      results := FetchEach(now, doneAt, pf, nets, timeoutMs, retries, intervalMs, backoff);
      prices := SettleAndSort(results, settleOrder, now);
    }
  }

  /** The module-level `exchangeService`: `getInstance` creates the one
      instance on first use and returns it from then on. */
  class Singleton {
    var instance: ExchangeService?

    constructor()
      ensures instance == null
    {
      instance := null;
    }

    method GetInstance(api: ExchangeApi.ExchangeApiService) returns (s: ExchangeService)
      requires api.Valid()
      modifies this
      ensures instance == s
      ensures old(instance) != null ==> s == old(instance)
      ensures old(instance) == null ==> fresh(s) && s.api == api && s.Valid()
    {
      if instance == null {
        instance := new ExchangeService(api);
      }
      s := instance;
    }
  }
}
