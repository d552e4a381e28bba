# BTC arbitrage dashboard, modelled in Dafny

This project models the price pipeline of a Bitcoin arbitrage dashboard. The
dashboard collects one BTC/USD price per exchange (Binance, Coinbase and
Kraken) and lists every pair of priced exchanges as an arbitrage opportunity:
buy on the cheaper one and sell on the dearer one. The model covers two sides.

The browser side:

- a fixed-window rate limiter per exchange (`WindowRateLimiter`);
- a REST client that routes every request through three CORS proxies in
  rotation and retries whole proxy rounds with exponential backoff
  (`ProxyClient`);
- the Binance ticker parser with its fallback endpoint (`BinanceRest`);
- the Coinbase and Kraken body checks and the rate-limit gate in front of
  them (`ExchangeApi`);
- the singleton `ExchangeService`, which asks all three exchanges and returns
  the records in alphabetical order (`ClientAggregator`);
- the direct-fetch `fetchExchangePrices`, which tries a primary endpoint and
  then a fallback under one shared abort timer (`PriceService`);
- the arbitrage calculator (`Arbitrage`).

The server side:

- a queueing rate limiter that spaces tasks `1000 / rateLimit` ms apart
  (`QueueRateLimiter`);
- the three WebSocket connectors. Their socket events are methods, and
  reconnects use a linear backoff with a cap (`KrakenStream`,
  `CoinbaseStream`, `BinanceStream` and the shared `Streams`);
- the HTTP retry helper (`ServerRetry`);
- the snapshot aggregator (`ServerAggregator`).

Some of the source's inputs become parameters of the model:

- JavaScript's numbers become `Float`, which is `NaN` or a real. `parseFloat`
  becomes a parameter `pf`. JSON values are a datatype, with property access
  modelled both when it throws and when it uses optional chaining (module
  `Js`).
- The network becomes an oracle. A `FetchOutcome` is what the k-th fetch of
  a call would yield, with its latency, so abort timers can be modelled
  (module `Http`). `Http` is the boundary to the I/O, not a model of code
  in the repository: `Fetch` is `fetch` under an `AbortController` timer,
  which settles with the response when it comes before the budget and
  fails with the abort message otherwise; `CheckedFetch` adds the
  `response.ok` test and its `HTTP <status>: <text>` error; `BodyJson` is
  `response.json()`; `Elapsed` is the time a caller waits on a shared timer,
  the smaller of the fetch's latency and the budget.
- Clocks are passed as arguments.
- The order in which concurrent requests settle is a parameter `settleOrder`.
- The outcome of a server connector's `fetchPrice` is a parameter `settle`.
- The configuration values that `src/config/api.ts` does not define are
  parameters: the proxy timeout, the retry count, the retry interval, the
  backoff factor and the fallback endpoints. `API_CONFIG.HEADERS`, which
  that file does not define either, is assumed to be defined.

## Model

| member | source | states |
|---|---|---|
| Js.Reciprocal | src/services/priceService.ts:20 | `1 / x` of a non-zero number is its reciprocal, their product is 1, and the reciprocal of a positive number is positive |
| Arbitrage.PairOpportunity | src/utils/arbitrage.ts:20-29 | buy on the cheaper exchange and sell on the dearer one (the second one on a tie); the difference is the absolute gap; the percentage times the sum of the prices is 200 times the difference, and lies in [0, 200) |
| Arbitrage.CalculateArbitrageOpportunities | src/utils/arbitrage.ts:10-34 | the result is a permutation of the opportunities the double loop builds, sorted by descending percentage, with one entry per pair of priced quotes |
| Arbitrage.OpportunityCount | src/utils/arbitrage.ts:13-31 | with k priced quotes the loop builds k·(k−1)/2 opportunities |
| Arbitrage.ComputedCount | src/utils/arbitrage.ts:13-31 | after the rows of the first m quotes, the opportunities built so far plus the pairs among the later priced quotes make up all the pairs |
| Arbitrage.RowCount | src/utils/arbitrage.ts:14-30 | the inner loop for a priced quote adds one opportunity per later priced quote, and none for a quote without a price |
| Arbitrage.ComputedMembers | src/utils/arbitrage.ts:13-31 | an opportunity is built by the first n rows exactly when it is the opportunity of some pair i < j of priced quotes with i < n |
| Arbitrage.RowMembers | src/utils/arbitrage.ts:14-30 | row i holds exactly the opportunities of the pairs (i, j) with a priced j after i and before m |
| Arbitrage.ThreeQuoteExample | src/utils/arbitrage.ts:10-34 | quotes 100 and 102 and one without a price give the single opportunity buy A, sell B, difference 2, percentage 200/101 |
| WindowRateLimiter.RateLimiter.constructor | src/services/utils/rateLimiter.ts:1-8 | a new limiter has a count of 0 and a window starting now |
| WindowRateLimiter.RateLimiter.ResetIfNeeded | src/services/utils/rateLimiter.ts:20-26 | once a whole window has passed the count drops to 0 and the window restarts now; otherwise nothing changes |
| WindowRateLimiter.RateLimiter.CanMakeRequest | src/services/utils/rateLimiter.ts:10-13 | after the reset check, the answer is yes exactly when the count is below the limit |
| WindowRateLimiter.RateLimiter.IncrementRequests | src/services/utils/rateLimiter.ts:15-18 | after the reset check, the count grows by one |
| WindowRateLimiter.GuardedCallsStayWithinLimit | src/services/api/exchangeApiService.ts:22-46 | calls that count a request only after an allowed check never push the count past the limit |
| WindowRateLimiter.LastResetNeverDecreases | src/services/utils/rateLimiter.ts:20-26 | with a clock that never goes back, the window start never moves backwards and never passes the last call |
| WindowRateLimiter.OneWindow | src/services/utils/rateLimiter.ts:10-26 | calls within one window never reset it; the count grows by exactly the calls granted, and a full window refuses every further call |
| QueueRateLimiter.RateLimiter.constructor | server/src/utils/rateLimiter.ts:1-9 | a new limiter has an empty queue, is not processing and last ran at 0 |
| QueueRateLimiter.RateLimiter.Execute | server/src/utils/rateLimiter.ts:11-19 | a new task is queued behind the waiting ones and the queue is processed: it runs at once if the limiter is idle and the minimum delay has passed, and waits otherwise |
| QueueRateLimiter.RateLimiter.ProcessQueue | server/src/utils/rateLimiter.ts:21-42 | a call while processing does nothing; otherwise tasks run in queue order, each no sooner than the minimum delay after the last |
| QueueRateLimiter.RateLimiter.RunLoop | server/src/utils/rateLimiter.ts:25-41 | the drain loop either runs the head task now, suspends until the minimum delay has passed, or stops once the queue is empty |
| QueueRateLimiter.RateLimiter.RunNext | server/src/utils/rateLimiter.ts:34-38 | the head of the queue runs and is removed, and the last-run time becomes now |
| QueueRateLimiter.RateLimiter.OnTimer | server/src/utils/rateLimiter.ts:30-38 | when the delay timer fires, the head task runs and the loop goes on |
| QueueRateLimiter.SpacedStarts | server/src/utils/rateLimiter.ts:26-37 | task starts spaced at least d apart are at least (j − i)·d apart for any two of them |
| Streams.BackoffSchedule | server/src/services/exchanges/krakenApiService.ts:113-120 | n disconnects in a row raise the attempt count to at most the cap and schedule reconnects after base·(a+1), base·(a+2), … , one per attempt left |
| Streams.NothingPastTheCap | server/src/services/exchanges/coinbaseApiService.ts:100-107 | once the attempts are used up, further disconnects schedule nothing and change nothing |
| KrakenStream.TickerPrice | server/src/services/exchanges/krakenApiService.ts:93-111 | a price is read exactly from a ticker frame whose last-trade field parses to a positive number; non-array messages carry none |
| KrakenStream.TickerFrameExample | server/src/services/exchanges/krakenApiService.ts:93-111 | a ticker frame yields its last-trade price and a subscription status event yields none |
| KrakenStream.KrakenApiService.constructor | server/src/services/exchanges/krakenApiService.ts:17-20 | the connector starts with no price, no waiters and no ping timer and connects at once; a failed socket creation counts one reconnect attempt and schedules a reconnect after 10000 ms |
| KrakenStream.KrakenApiService.Connect | server/src/services/exchanges/krakenApiService.ts:22-59 | a new socket starts out CONNECTING; when socket creation throws, the disconnect handler decides the retry and its delay is appended to the scheduled reconnects |
| KrakenStream.KrakenApiService.HandleDisconnect | server/src/services/exchanges/krakenApiService.ts:113-120 | below the cap of 3 the attempt count grows by one and a reconnect is scheduled after 10000 ms times the new count; at the cap nothing is scheduled |
| KrakenStream.KrakenApiService.OnOpen | server/src/services/exchanges/krakenApiService.ts:26-30 | an open socket resets the attempt count, queues the subscription and starts the ping timer with a period of 30000 ms |
| KrakenStream.KrakenApiService.Subscribe | server/src/services/exchanges/krakenApiService.ts:78-91 | only an open socket queues the subscription message with the rate limiter |
| KrakenStream.KrakenApiService.StartPing | server/src/services/exchanges/krakenApiService.ts:61-69 | the ping timer is set with a period of 30000 ms |
| KrakenStream.KrakenApiService.StopPing | server/src/services/exchanges/krakenApiService.ts:71-76 | the ping timer is cleared and no period remains |
| KrakenStream.KrakenApiService.OnPingTimer | server/src/services/exchanges/krakenApiService.ts:62-68 | each tick queues a ping with the rate limiter when the socket is open, and nothing otherwise |
| KrakenStream.KrakenApiService.OnMessage | server/src/services/exchanges/krakenApiService.ts:32-39 | a price message updates the cached price and resolves every waiting `fetchPrice`; anything else, including unparsable data, changes nothing |
| KrakenStream.KrakenApiService.OnClose | server/src/services/exchanges/krakenApiService.ts:41-44 | the socket is CLOSED, the ping timer stops, no period remains, and the disconnect handler decides the retry and records its delay |
| KrakenStream.KrakenApiService.OnError | server/src/services/exchanges/krakenApiService.ts:46-50 | the ping timer stops, no period remains, and the disconnect handler decides the retry and records its delay |
| KrakenStream.KrakenApiService.FetchPrice | server/src/services/exchanges/krakenApiService.ts:122-142 | a cached positive price resolves at once; otherwise the caller waits for the next price event under a 10000 ms timer |
| KrakenStream.KrakenApiService.OnFetchTimeout | server/src/services/exchanges/krakenApiService.ts:128-131 | a waiting `fetchPrice` whose timer fires stops waiting and fails with the timeout message |
| KrakenStream.KrakenApiService.Disconnect | server/src/services/exchanges/krakenApiService.ts:148-154 | the ping timer stops, no period remains, and the socket field becomes null |
| CoinbaseStream.TickerPrice | server/src/services/exchanges/coinbaseApiService.ts:90-98 | a price is read exactly from a BTC-USD ticker whose price parses to a positive number |
| CoinbaseStream.TickerMessageExample | server/src/services/exchanges/coinbaseApiService.ts:90-98 | a ticker yields its price and a heartbeat yields none |
| CoinbaseStream.CoinbaseApiService.constructor | server/src/services/exchanges/coinbaseApiService.ts:17-20 | the connector starts with no price, no waiters and no heartbeat timer and connects at once; a failed socket creation counts one reconnect attempt and schedules a reconnect after 5000 ms |
| CoinbaseStream.CoinbaseApiService.Connect | server/src/services/exchanges/coinbaseApiService.ts:22-56 | a new socket starts out CONNECTING; when socket creation throws, the disconnect handler decides the retry and its delay is appended to the scheduled reconnects |
| CoinbaseStream.CoinbaseApiService.HandleDisconnect | server/src/services/exchanges/coinbaseApiService.ts:100-107 | below the cap of 5 the attempt count grows by one and a reconnect is scheduled after 5000 ms times the new count; at the cap nothing is scheduled |
| CoinbaseStream.CoinbaseApiService.OnOpen | server/src/services/exchanges/coinbaseApiService.ts:26-30 | an open socket resets the attempt count, queues the subscription and starts the heartbeat with a period of 30000 ms |
| CoinbaseStream.CoinbaseApiService.Subscribe | server/src/services/exchanges/coinbaseApiService.ts:73-88 | only an open socket queues the subscription message with the rate limiter |
| CoinbaseStream.CoinbaseApiService.StartHeartbeat | server/src/services/exchanges/coinbaseApiService.ts:58-64 | the heartbeat timer is set with a period of 30000 ms |
| CoinbaseStream.CoinbaseApiService.StopHeartbeat | server/src/services/exchanges/coinbaseApiService.ts:66-71 | the heartbeat timer is cleared and no period remains |
| CoinbaseStream.CoinbaseApiService.OnHeartbeatTimer | server/src/services/exchanges/coinbaseApiService.ts:59-63 | a tick sends a heartbeat directly exactly when the socket is open |
| CoinbaseStream.CoinbaseApiService.OnMessage | server/src/services/exchanges/coinbaseApiService.ts:32-39 | a price message updates the cached price and resolves every waiting `fetchPrice`; anything else changes nothing |
| CoinbaseStream.CoinbaseApiService.OnClose | server/src/services/exchanges/coinbaseApiService.ts:41-44 | the socket is CLOSED, the heartbeat stops, no period remains, and the disconnect handler decides the retry and records its delay |
| CoinbaseStream.CoinbaseApiService.OnError | server/src/services/exchanges/coinbaseApiService.ts:46-50 | the heartbeat stops, no period remains, and the disconnect handler decides the retry and records its delay |
| CoinbaseStream.CoinbaseApiService.FetchPrice | server/src/services/exchanges/coinbaseApiService.ts:109-129 | a cached positive price resolves at once; otherwise the caller waits for the next price event under a 10000 ms timer |
| CoinbaseStream.CoinbaseApiService.OnFetchTimeout | server/src/services/exchanges/coinbaseApiService.ts:115-118 | a waiting `fetchPrice` whose timer fires stops waiting and fails with the timeout message |
| CoinbaseStream.CoinbaseApiService.Disconnect | server/src/services/exchanges/coinbaseApiService.ts:135-141 | the heartbeat stops, no period remains, and the socket field becomes null |
| BinanceStream.TickerPrice | server/src/services/exchanges/binanceApiService.ts:77-90 | a price is read exactly from a 24-hour ticker event whose close field parses to a positive number |
| BinanceStream.TickerEventExample | server/src/services/exchanges/binanceApiService.ts:77-90 | a BTCUSDT ticker event yields its close price and an event for another symbol yields none |
| BinanceStream.BinanceApiService.constructor | server/src/services/exchanges/binanceApiService.ts:17-20 | the connector starts with no price, no waiters and no ping timer and connects at once; a failed socket creation counts one reconnect attempt and schedules a reconnect after 2000 ms |
| BinanceStream.BinanceApiService.Connect | server/src/services/exchanges/binanceApiService.ts:22-58 | a new socket starts out CONNECTING; when socket creation throws, the disconnect handler decides the retry and its delay is appended to the scheduled reconnects |
| BinanceStream.BinanceApiService.HandleDisconnect | server/src/services/exchanges/binanceApiService.ts:92-99 | below the cap of 3 the attempt count grows by one and a reconnect is scheduled after 2000 ms times the new count; at the cap nothing is scheduled |
| BinanceStream.BinanceApiService.OnOpen | server/src/services/exchanges/binanceApiService.ts:26-29 | an open socket resets the attempt count and starts the ping timer with a period of 120000 ms; nothing else is sent |
| BinanceStream.BinanceApiService.StartPing | server/src/services/exchanges/binanceApiService.ts:60-68 | the ping timer is set with a period of 120000 ms |
| BinanceStream.BinanceApiService.StopPing | server/src/services/exchanges/binanceApiService.ts:70-75 | the ping timer is cleared and no period remains |
| BinanceStream.BinanceApiService.OnPingTimer | server/src/services/exchanges/binanceApiService.ts:61-67 | each tick queues a ping with the rate limiter when the socket is open, and nothing otherwise |
| BinanceStream.BinanceApiService.OnMessage | server/src/services/exchanges/binanceApiService.ts:31-38 | a price message updates the cached price and resolves every waiting `fetchPrice`; anything else changes nothing |
| BinanceStream.BinanceApiService.OnClose | server/src/services/exchanges/binanceApiService.ts:40-43 | the socket is CLOSED, the ping timer stops, no period remains, and the disconnect handler decides the retry and records its delay |
| BinanceStream.BinanceApiService.OnError | server/src/services/exchanges/binanceApiService.ts:45-49 | the ping timer stops, no period remains, and the disconnect handler decides the retry and records its delay |
| BinanceStream.BinanceApiService.FetchPrice | server/src/services/exchanges/binanceApiService.ts:101-121 | a cached positive price resolves at once; otherwise the caller waits for the next price event under a 10000 ms timer |
| BinanceStream.BinanceApiService.OnFetchTimeout | server/src/services/exchanges/binanceApiService.ts:107-110 | a waiting `fetchPrice` whose timer fires stops waiting and fails with the timeout message |
| BinanceStream.BinanceApiService.Disconnect | server/src/services/exchanges/binanceApiService.ts:127-133 | the ping timer stops, no period remains, and the socket field becomes null |
| ServerRetry.FetchWithDefaultRetries | server/src/services/exchanges/baseApiService.ts:2-6 | with the default of three retries, one to three attempts are made with one pause fewer; the call succeeds exactly when one of the first three attempts does |
| ServerRetry.FetchWithRetry | server/src/services/exchanges/baseApiService.ts:2-43 | the attempts stop at the first success. Otherwise all `retries` attempts fail and the last error is thrown, or "All retries failed" when there were none. A 5000 ms pause follows every failed attempt but the last |
| ServerAggregator.Entry | server/src/services/exchangeService.ts:18-33 | a fulfilled fetch gives its price and no error; a thrown one gives no price and its message, or "Unknown error" for a value that is not an Error; the entry is stamped with the snapshot time |
| ServerAggregator.FetchAllPrices | server/src/services/exchangeService.ts:13-38 | one entry per connector, in declaration order, all stamped with the same time; an entry has a price exactly when its fetch was fulfilled |
| ServerAggregator.SnapshotIsWellFormed | server/src/services/exchangeService.ts:13-38 | when the connectors yield positive prices, each entry has exactly one of price and error, and the snapshot is valid input for the arbitrage calculator |
| ProxyClient.FetchesUntilOk | src/services/api/baseApiService.ts:16-54 | the number of fetches made is at most the bound, and at least one when the bound is positive |
| ProxyClient.FetchesUntilOkStops | src/services/api/baseApiService.ts:16-54 | every fetch before the last one fails, and the last one succeeds unless the bound cut fetching short |
| ProxyClient.FetchesAfterFailures | src/services/api/baseApiService.ts:66-78 | after a run of failed fetches, fetching goes on from the next one: the whole rounds add up |
| ProxyClient.FetchesStopAtSuccess | src/services/api/baseApiService.ts:42-44 | fetching stops at the first success, whatever the bound beyond it |
| ProxyClient.WholeRounds | src/services/api/baseApiService.ts:17 | whole rounds of three fetches bring the proxy rotation back to the same proxy |
| ProxyClient.RoundIndex | src/services/api/baseApiService.ts:43 | the proxy that answered in a later round is the proxy the rotation reached in that round |
| ProxyClient.RetryOutcomeIsRetryResult | src/services/api/baseApiService.ts:59-81 | retry rounds of up to three proxy fetches each add up to one run of fetches that stops at the first success within the budget |
| ProxyClient.RetryResult | src/services/api/baseApiService.ts:59-81 | no retries fail with "All retries failed"; otherwise the call yields what its last fetch yielded |
| ProxyClient.BaseApiService.constructor | src/services/api/baseApiService.ts:4 | the proxy index starts at 0 |
| ProxyClient.BaseApiService.FetchWithProxy | src/services/api/baseApiService.ts:6-57 | the proxies are tried once each, from the remembered index on. The call stops at the first ok answer and remembers that proxy; when all three fail it throws the last error and the index stays |
| ProxyClient.BaseApiService.FetchWithRetry | src/services/api/baseApiService.ts:59-81 | up to `retries` proxy rounds, stopping at the first success. The result is the specification `RetryResult`. The pause after failed round i is interval·backoff^i, except after the last round |
| BinanceRest.ParseTickerResponse | src/services/api/binanceApiService.ts:44-56 | `price` is preferred over `lastPrice`. The result is a positive number exactly when the chosen field parses to one; no field gives the format error, and a bad value gives the value error quoting it |
| BinanceRest.PriceIsPreferred | src/services/api/binanceApiService.ts:50 | a truthy `price` makes `lastPrice` irrelevant |
| BinanceRest.TickerExamples | src/services/api/binanceApiService.ts:44-56 | worked cases: a price, a zero price, a missing price and a null body |
| BinanceRest.PrimaryPrice | src/services/api/binanceApiService.ts:8-19 | the primary answer goes through the ticker parser, so a success is a positive price; a failed fetch passes its error on |
| BinanceRest.FallbackPrice | src/services/api/binanceApiService.ts:24-36 | the fallback returns `parseFloat(lastPrice)` unchecked, which may be NaN; a failed fetch passes its error on |
| BinanceRest.Price | src/services/api/binanceApiService.ts:5-42 | the primary result when it succeeds, else the fallback's. When both fail, the error wraps the primary's message. A price that is not positive can only come from the fallback |
| BinanceRest.Fetches | src/services/api/binanceApiService.ts:5-42 | the fallback is only fetched when the primary fails, and at most two full retry budgets are used |
| BinanceRest.FetchPrice | src/services/api/binanceApiService.ts:5-42 | the method yields `Price`, makes `Fetches` fetches, and leaves the proxy index where the primary run and, when it gave no price, the fallback run moved it (`ProxyIndex`) |
| ExchangeApi.CoinbaseBodyPrice | src/services/api/exchangeApiService.ts:61-72 | a missing amount gives the format error; otherwise the result is a positive price exactly when the amount parses to one, else the price error |
| ExchangeApi.KrakenBodyPrice | src/services/api/exchangeApiService.ts:87-100 | a null body throws; a non-empty error list wins; otherwise the result is a positive price exactly when the XXBTZUSD last trade parses to one |
| ExchangeApi.Read | src/services/api/exchangeApiService.ts:52-76 | fetch, JSON and body errors are all wrapped with the exchange's prefix; success is the body check's price |
| ExchangeApi.KrakenErrorWins | src/services/api/exchangeApiService.ts:89-91 | the first entry of Kraken's error list becomes the message |
| ExchangeApi.KrakenBodyExample | src/services/api/exchangeApiService.ts:93-100 | a worked Kraken body yields its last-trade price |
| ExchangeApi.CoinbaseBodyExamples | src/services/api/exchangeApiService.ts:63-70 | worked Coinbase bodies: no amount, and a valid amount |
| ExchangeApi.Routed | src/services/api/exchangeApiService.ts:31-43 | each known exchange is sent to its own fetcher; Coinbase and Kraken prices are positive |
| ExchangeApi.ExchangeApiService.constructor | src/services/api/exchangeApiService.ts:7-20 | three fresh limiters with empty windows starting now |
| ExchangeApi.ExchangeApiService.Limiter | src/services/api/exchangeApiService.ts:23 | each known exchange has one of the three limiters |
| ExchangeApi.ExchangeApiService.FetchCoinbasePrice | src/services/api/exchangeApiService.ts:52-76 | the method yields the specification `CoinbasePrice` and makes as many fetches as the retry run needs; the proxy index moves to the proxy that answered and stays when the run failed |
| ExchangeApi.ExchangeApiService.FetchKrakenPrice | src/services/api/exchangeApiService.ts:78-104 | the method yields the specification `KrakenPrice` and makes as many fetches as the retry run needs; the proxy index moves to the proxy that answered and stays when the run failed |
| ExchangeApi.ExchangeApiService.FetchPrice | src/services/api/exchangeApiService.ts:22-50 | an unknown exchange throws before any fetch; a refused check throws "Rate limit exceeded" without fetching; otherwise the routed fetch runs, the proxy index is the one that fetch leaves (`RoutedIndex`), and only a success counts a request; the other limiters are untouched |
| ClientAggregator.ByNameIsStrictWeakOrder | src/services/exchangeService.ts:43 | ordering records by exchange name is a strict weak order |
| ClientAggregator.SortedThree | src/services/exchangeService.ts:43 | a sorted list of three records holding three distinct names in order is exactly those records in that order |
| ClientAggregator.SettledThree | src/services/exchangeService.ts:22-40 | pushing the three results in any settle order loses none of them |
| ClientAggregator.SortByName | src/services/exchangeService.ts:43 | the records come out sorted by name, as a permutation of the input |
| ClientAggregator.SettleAndSort | src/services/exchangeService.ts:22-43 | whatever order the fetches settle in, the result is BINANCE, COINBASE, KRAKEN, each with its price, or NaN when its fetch failed |
| ClientAggregator.ExchangeService.constructor | src/services/exchangeService.ts:9 | the instance uses the given static API service |
| ClientAggregator.ExchangeService.FetchOne | src/services/exchangeService.ts:25 | one exchange is fetched through its rate limiter; its window is updated as one guarded call and the other limiters are unchanged |
| ClientAggregator.ExchangeService.FetchEach | src/services/exchangeService.ts:22-40 | the three exchanges are fetched, each through its own limiter; limits that held before still hold |
| ClientAggregator.ExchangeService.FetchAllPrices | src/services/exchangeService.ts:18-44 | the call never throws. Each result is what that exchange's `fetchPrice` yielded. Each limiter is updated as one guarded call, and limits that held before still hold. The records are in alphabetical order |
| ClientAggregator.Singleton.constructor | src/services/exchangeService.ts:5 | no instance exists yet |
| ClientAggregator.Singleton.GetInstance | src/services/exchangeService.ts:11-16 | the first call creates the instance; every later call returns that same instance |
| PriceService.BinanceValue | src/services/priceService.ts:13-14 | a null body throws; a truthy `price` is parsed; otherwise the value is null |
| PriceService.CoinbaseValue | src/services/priceService.ts:15-22 | a null body throws; a truthy spot amount is parsed; otherwise a truthy USD rate gives its reciprocal; otherwise null |
| PriceService.KrakenValue | src/services/priceService.ts:23-29 | a null body or a non-empty error list throws, and nothing else does; otherwise the XXBTZUSD close price, or else the XBT/USD one, is parsed when truthy; otherwise null |
| PriceService.HandleResponse | src/services/priceService.ts:4-37 | a bad status throws with the status message; every failure while reading the body becomes "Failed to parse <exchange> response"; an unknown exchange yields null |
| PriceService.TryEndpoint | src/services/priceService.ts:60-70 | one endpoint succeeds exactly when the fetch, the handling and the positivity test all pass; its errors pass through |
| PriceService.FetchWithRetry | src/services/priceService.ts:39-87 | the primary endpoint's price when valid; otherwise the fallback's under the time left on the shared timer; otherwise one error naming both messages |
| PriceService.PrimaryTimeoutAbortsFallback | src/services/priceService.ts:43-44 | a primary fetch that uses up the shared timer aborts the fallback too |
| PriceService.FallbackAfterBadStatus | src/services/priceService.ts:72-83 | after a bad primary status the call succeeds exactly when the fallback does, under the time the primary left; otherwise the error names the status message and the fallback's |
| PriceService.Fulfilled | src/services/priceService.ts:145-149 | the fulfilled records are positive, stamped now and named after known exchanges; there are none exactly when every fetch failed |
| PriceService.AllFailuresListed | src/services/priceService.ts:133-140 | when every fetch fails, the error list holds one labelled message per fetch, in settle order |
| PriceService.Summarize | src/services/priceService.ts:145-153 | the call succeeds exactly when some fetch did, with the fulfilled records; otherwise it throws "Failed to fetch prices: " followed by the errors joined by ", " |
| PriceService.FetchExchangePrices | src/services/priceService.ts:89-155 | each exchange is tried once with its endpoints. The call succeeds exactly when some exchange yields a positive price, and the message lists the failures in settle order |

## Left out

- Infinities are not modelled. `Float` is NaN or a real, so `1 / 0` in the
  Coinbase rate branch becomes NaN. In JavaScript it is Infinity, which
  passes the positivity test.
- Number-to-string formatting is left out: the Binance value error quotes the
  JSON lexeme. JavaScript's `toString` of floats and ISO timestamps are not
  modelled; timestamps are natural-number clocks.
- Concurrency is not modelled. `Promise.all` and `Promise.allSettled` are
  sequenced in index order, and each client fetch gets its own network
  oracle. Settle order matters only for the error list and the push order,
  and it is the parameter `settleOrder`. The interleaving of the shared
  `corsProxyIndex` between concurrent calls is not modelled.
- Events from a socket after it has been replaced, intervals leaked by a
  second `startPing`, `onPrice` listeners and pong handlers are not modelled.
- `QueueRateLimiter.RateLimiter.Execute`: tasks take no modelled time, so
  `lastRequest` is the start time of the last task. `burstLimit` is stored
  and never read, as in the source.
- QueueRateLimiter.RateLimiter.RunLoop and
  QueueRateLimiter.RateLimiter.RunNext assume that a task does not throw.
  In the source (`server/src/utils/rateLimiter.ts:13-16`, `:34-37`) a task
  can throw, for example a `ws.send` on a CONNECTING socket. When one does:
  - that task has already been shifted off the queue;
  - `lastRequest` is not updated;
  - its `execute` promise never settles;
  - `processQueue` rejects, and the rejection goes unhandled;
  - `processing` stays true (line 41 is never reached), so later calls
    return at the guard on line 22 and the rest of the queue never runs.
- `ClientAggregator.SortByName`: `localeCompare` is modelled as code-unit
  order. This agrees on the three upper-case names. The sort's order among
  equal names is not stated.
- Configuration absent from `src/config/api.ts` is a parameter: the retry
  count, interval and backoff factor, the timeout and the fallback
  endpoints. The CORS proxy list is fixed at three proxies (`PROXY_COUNT`);
  its URLs, `encodeURIComponent` and the proxy request headers are left out.
- ExchangeApi.ExchangeApiService.FetchCoinbasePrice and
  ExchangeApi.ExchangeApiService.FetchKrakenPrice assume `API_CONFIG.HEADERS`
  is defined, and the headers they send are left out.
  - `API_CONFIG.HEADERS` is read at `src/services/api/exchangeApiService.ts:57`
    and `:83`, but `src/config/api.ts` does not define it.
  - In the code as it stands, each call therefore throws a TypeError before
    any fetch and fails with "Error fetching COINBASE price: …" (or
    KRAKEN). The proxy index does not move.
  - The model always makes the fetch, as if `HEADERS` were configured.
- Arbitrage.CalculateArbitrageOpportunities: requires every price present to
  be positive, which every producer of these records guarantees. A zero sum
  would divide by zero.
- Arbitrage.CalculateArbitrageOpportunities: the order among opportunities
  with equal percentages is not stated. The source's stable sort keeps them
  in push order (`src/utils/arbitrage.ts:33`); the model states only that the
  list is sorted by percentage and a permutation of the pairs.
- PriceService.FetchExchangePrices: the `'Request timeout'` branch is left
  out because a `DOMException` is an `Error`, so it is never reached. The
  `'Unknown error'` branch is left out because every thrown value is an
  `Error`.
- ExchangeApi.ExchangeApiService.FetchPrice: the `Unsupported exchange`
  branch is left out. An unknown name has no limiter, so the call throws a
  TypeError at the limit check first; this is the NO_LIMITER error.
- Object prototype keys such as `"constructor"` are not modelled as present
  properties.
- Console logging is left out.
- BinanceRest.Price: the fallback's `parseFloat(lastPrice)` is returned
  unchecked, as in the source, so NaN can reach the aggregator as a
  "successful" price.
- Server ExchangeService: the connectors are represented only by how their
  `fetchPrice` settled (the parameter `settle`). The modelled connector
  classes are not wired to it.
- The HTTP routes and server start-up (`server/src/routes/prices.ts`,
  `server/src/server.ts`) are left out, and so are the React components and
  hooks.
