/** The Binance WebSocket connector, modelled as the Kraken one is. The
    stream URL names the ticker, so opening the socket subscribes nothing;
    only pings go through the rate limiter. */
module BinanceStream {
  import opened Js
  import opened Streams
  import QueueRateLimiter

  const MAX_RECONNECT_ATTEMPTS: nat := 3
  const RECONNECT_DELAY: nat := 2000
  const PING_INTERVAL_MS: nat := 120000
  const PRICE_TIMEOUT_MS: nat := 10000
  const MESSAGES_PER_SECOND: real := 5.0
  const TIMEOUT_MESSAGE := "Timeout waiting for Binance price"

  /** `handleMessage`: the current price `c` of a 24-hour ticker event for
      the symbol BTCUSDT, when it parses to a positive number. Reading `s`
      of null throws, which the handler catches. */
  function TickerPrice(pf: FloatParser, message: Json): (r: Option<real>)
    ensures r.Some? <==>
      OptGet(message, "s") == JString("BTCUSDT") && IsPositive(ParseFloat(pf, OptGet(message, "c")))
    ensures r.Some? ==> r.value > 0.0 && ParseFloat(pf, OptGet(message, "c")) == Num(r.value)
    ensures !message.JObject? ==> r.None?
  {
    match Get(message, "s")
    case Err(_) => None
    case Ok(symbol) =>
      if symbol == JString("BTCUSDT") then
        var price := ParseFloat(pf, OptGet(message, "c"));
        if IsPositive(price) then Some(price.value) else None
      else None
  }

  /** A ticker event for BTCUSDT carries its price; one for another symbol does not. */
  lemma TickerEventExample(pf: FloatParser)
    requires pf("65010.25") == Num(6501025.0 / 100.0)
    ensures TickerPrice(pf, JObject(map[
      "e" := JString("24hrTicker"),
      "s" := JString("BTCUSDT"),
      "c" := JString("65010.25")])) == Some(6501025.0 / 100.0)
    ensures TickerPrice(pf, JObject(map[
      "s" := JString("ETHUSDT"),
      "c" := JString("65010.25")])) == None
  {
    var event := JObject(map[
      "e" := JString("24hrTicker"),
      "s" := JString("BTCUSDT"),
      "c" := JString("65010.25")]);
    assert OptGet(event, "c") == JString("65010.25");
  }

  class BinanceApiService {
    var ws: Ws
    var lastPrice: real
    var reconnectAttempts: nat
    /** The period of the timer held in `pingInterval`, when one is set. */
    var pingInterval: Option<nat>
    /** The delays of the reconnects `handleDisconnect` has scheduled, oldest first. */
    var scheduled: seq<nat>
    /** The `fetchPrice` promises waiting for a price event. */
    var waiters: set<nat>
    const rateLimiter: QueueRateLimiter.RateLimiter<Outbound>

    ghost predicate Valid()
      reads this, rateLimiter
    {
      && reconnectAttempts <= MAX_RECONNECT_ATTEMPTS
      && lastPrice >= 0.0
      && (waiters != {} ==> lastPrice == 0.0)
      && rateLimiter.Valid()
      && rateLimiter.rateLimit == MESSAGES_PER_SECOND
    }

    /** The constructor connects at once; `createFails` says whether creating
        the socket throws (then a reconnect is scheduled). */
    constructor(now: real, createFails: bool)
      requires now >= 0.0
      ensures Valid() && fresh(rateLimiter) && rateLimiter.submitted == []
      ensures lastPrice == 0.0 && waiters == {} && pingInterval == None
      ensures createFails ==> ws == NoSocket && reconnectAttempts == 1 && scheduled == [RECONNECT_DELAY]
      ensures !createFails ==> ws == Socket(Connecting) && reconnectAttempts == 0 && scheduled == []
    {
      ws := NoSocket;
      lastPrice := 0.0;
      reconnectAttempts := 0;
      pingInterval := None;
      scheduled := [];
      waiters := {};
      rateLimiter := new QueueRateLimiter.RateLimiter(MESSAGES_PER_SECOND, None, now);
      new;
      var retry := Connect(createFails);
    }

    /** `connect`: a new socket in state CONNECTING, or, when creating it
        throws, `handleDisconnect`. */
    method Connect(createFails: bool) returns (retry: Option<nat>)
      requires Valid()
      modifies this`ws, this`reconnectAttempts, this`scheduled
      ensures Valid() && scheduled == old(scheduled) + Scheduled(retry)
      ensures !createFails ==>
        ws == Socket(Connecting) && reconnectAttempts == old(reconnectAttempts) && retry == None
      ensures createFails ==> ws == old(ws)
      ensures createFails ==>
        Decision(reconnectAttempts, retry) == NextAttempt(old(reconnectAttempts), MAX_RECONNECT_ATTEMPTS, RECONNECT_DELAY)
    {
      if createFails {
        retry := HandleDisconnect();
      } else {
        ws := Socket(Connecting);
        retry := None;
      }
    }

    /** `handleDisconnect`: schedule `connect` after RECONNECT_DELAY times the
        new attempt count, unless the attempts are used up. */
    method HandleDisconnect() returns (retry: Option<nat>)
      requires Valid()
      modifies this`reconnectAttempts, this`scheduled
      ensures Valid() && scheduled == old(scheduled) + Scheduled(retry)
      ensures Decision(reconnectAttempts, retry) == NextAttempt(old(reconnectAttempts), MAX_RECONNECT_ATTEMPTS, RECONNECT_DELAY)
    {
      if reconnectAttempts < MAX_RECONNECT_ATTEMPTS {
        reconnectAttempts := reconnectAttempts + 1;
        retry := Some(RECONNECT_DELAY * reconnectAttempts);
        scheduled := scheduled + [RECONNECT_DELAY * reconnectAttempts];
      } else {
        retry := None;
      }
    }

    /** The socket's 'open' event: reset the attempts and start pinging. */
    method OnOpen()
      requires Valid() && ws.Socket?
      modifies this`ws, this`reconnectAttempts, this`pingInterval
      ensures Valid() && ws == Socket(Open) && reconnectAttempts == 0 && pingInterval == Some(PING_INTERVAL_MS)
    {
      ws := Socket(Open);
      reconnectAttempts := 0;
      StartPing();
    }

    method StartPing()
      modifies this`pingInterval
      ensures pingInterval == Some(PING_INTERVAL_MS)
    {
      pingInterval := Some(PING_INTERVAL_MS);
    }

    method StopPing()
      modifies this`pingInterval
      ensures pingInterval == None
    {
      if pingInterval.Some? {
        pingInterval := None;
      }
    }

    /** The ping interval fires: an open socket queues a ping on the rate limiter. */
    method OnPingTimer(now: real)
      requires Valid() && pingInterval.Some? && now >= rateLimiter.clock
      modifies rateLimiter
      ensures Valid()
      ensures ws == Socket(Open) ==> rateLimiter.submitted == old(rateLimiter.submitted) + [PingFrame]
      ensures ws != Socket(Open) ==> unchanged(rateLimiter)
    {
      if ws.Socket? && ws.readyState == Open {
        rateLimiter.Execute(PingFrame, now);
      }
    }

    /** The 'message' event; `data` is None when `JSON.parse` throws. A price
        updates `lastPrice` and resolves every waiting `fetchPrice`. */
    method OnMessage(pf: FloatParser, data: Option<Json>) returns (emitted: Option<real>, resolved: set<nat>)
      requires Valid()
      modifies this`lastPrice, this`waiters
      ensures Valid()
      ensures data.None? ==> emitted == None
      ensures data.Some? ==> emitted == TickerPrice(pf, data.value)
      ensures emitted.Some? ==> lastPrice == emitted.value && resolved == old(waiters) && waiters == {}
      ensures emitted.None? ==> lastPrice == old(lastPrice) && resolved == {} && waiters == old(waiters)
      ensures old(lastPrice) > 0.0 ==> lastPrice > 0.0
    {
      emitted, resolved := None, {};
      if data.Some? {
        var price := TickerPrice(pf, data.value);
        if price.Some? {
          lastPrice := price.value;
          emitted := price;
          resolved := waiters;
          waiters := {};
        }
      }
    }

    /** The 'close' event: stop pinging and reconnect. */
    method OnClose() returns (retry: Option<nat>)
      requires Valid()
      modifies this`ws, this`pingInterval, this`reconnectAttempts, this`scheduled
      ensures Valid() && pingInterval == None && scheduled == old(scheduled) + Scheduled(retry)
      ensures ws == (if old(ws).Socket? then Socket(Closed) else NoSocket)
      ensures Decision(reconnectAttempts, retry) == NextAttempt(old(reconnectAttempts), MAX_RECONNECT_ATTEMPTS, RECONNECT_DELAY)
    {
      if ws.Socket? {
        ws := Socket(Closed);
      }
      StopPing();
      retry := HandleDisconnect();
    }

    /** The 'error' event: stop pinging and reconnect. */
    method OnError() returns (retry: Option<nat>)
      requires Valid()
      modifies this`pingInterval, this`reconnectAttempts, this`scheduled
      ensures Valid() && pingInterval == None && scheduled == old(scheduled) + Scheduled(retry)
      ensures Decision(reconnectAttempts, retry) == NextAttempt(old(reconnectAttempts), MAX_RECONNECT_ATTEMPTS, RECONNECT_DELAY)
    {
      StopPing();
      retry := HandleDisconnect();
    }

    /** `fetchPrice`: the cached price at once when there is one; otherwise the
        promise `id` waits for the next price, with a timeout. */
    method FetchPrice(id: nat) returns (reply: FetchReply)
      requires Valid() && id !in waiters
      modifies this`waiters
      ensures Valid()
      ensures old(lastPrice) > 0.0 ==> reply == Resolved(lastPrice) && waiters == old(waiters)
      ensures old(lastPrice) <= 0.0 ==> reply == Waiting(PRICE_TIMEOUT_MS) && waiters == old(waiters) + {id}
    {
      if lastPrice > 0.0 {
        reply := Resolved(lastPrice);
      } else {
        reply := Waiting(PRICE_TIMEOUT_MS);
        waiters := waiters + {id};
      }
    }

    /** The timeout of a waiting `fetchPrice`: it stops waiting and rejects. */
    method OnFetchTimeout(id: nat) returns (message: string)
      requires Valid() && id in waiters
      modifies this`waiters
      ensures Valid() && waiters == old(waiters) - {id}
      ensures message == TIMEOUT_MESSAGE
    {
      waiters := waiters - {id};
      message := TIMEOUT_MESSAGE;
    }

    /** `disconnect`: stop pinging and drop the socket. The attempt count is
        left as it is, so the 'close' event that follows still reconnects. */
    method Disconnect()
      requires Valid()
      modifies this`ws, this`pingInterval
      ensures Valid() && ws == NoSocket && pingInterval == None
    {
      StopPing();
      if ws.Socket? {
        ws := NoSocket;
      }
    }
  }
}
