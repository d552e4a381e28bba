/** The Coinbase WebSocket connector, modelled as the Kraken one is: socket
    events are methods, a reconnect delay is returned to the caller, the
    heartbeat interval is a field, and a waiting `fetchPrice` is an id in
    `waiters`. The heartbeat is sent directly, not through the rate limiter. */
module CoinbaseStream {
  import opened Js
  import opened Streams
  import QueueRateLimiter

  const MAX_RECONNECT_ATTEMPTS: nat := 5
  const RECONNECT_DELAY: nat := 5000
  const HEARTBEAT_INTERVAL_MS: nat := 30000
  const PRICE_TIMEOUT_MS: nat := 10000
  const MESSAGES_PER_SECOND: real := 8.0
  const TIMEOUT_MESSAGE := "Timeout waiting for Coinbase price"

  /** A ticker message for the product BTC-USD. */
  predicate IsTicker(message: Json) {
    OptGet(message, "type") == JString("ticker") && OptGet(message, "product_id") == JString("BTC-USD")
  }

  /** `handleMessage`: the price of a BTC-USD ticker message, when it parses
      to a positive number. A null message throws inside the handler, which
      the listener catches: it carries no price either. */
  function TickerPrice(pf: FloatParser, message: Json): (r: Option<real>)
    ensures r.Some? <==> IsTicker(message) && IsPositive(ParseFloat(pf, OptGet(message, "price")))
    ensures r.Some? ==> r.value > 0.0 && ParseFloat(pf, OptGet(message, "price")) == Num(r.value)
    ensures !message.JObject? ==> r.None?
  {
    match Get(message, "type")
    case Err(_) => None
    case Ok(kind) =>
      if kind == JString("ticker") && OptGet(message, "product_id") == JString("BTC-USD") then
        var price := ParseFloat(pf, OptGet(message, "price"));
        if IsPositive(price) then Some(price.value) else None
      else None
  }

  /** A Coinbase ticker carries its price as a string; a heartbeat carries none. */
  lemma TickerMessageExample(pf: FloatParser)
    requires pf("64999.5") == Num(649995.0 / 10.0)
    ensures TickerPrice(pf, JObject(map[
      "type" := JString("ticker"),
      "product_id" := JString("BTC-USD"),
      "price" := JString("64999.5")])) == Some(649995.0 / 10.0)
    ensures TickerPrice(pf, JObject(map["type" := JString("heartbeat")])) == None
  {
    var ticker := JObject(map[
      "type" := JString("ticker"),
      "product_id" := JString("BTC-USD"),
      "price" := JString("64999.5")]);
    assert OptGet(ticker, "price") == JString("64999.5");
  }

  class CoinbaseApiService {
    var ws: Ws
    var lastPrice: real
    var reconnectAttempts: nat
    /** The period of the timer held in `heartbeatInterval`, when one is set. */
    var heartbeatInterval: Option<nat>
    /** The delays of the reconnects `handleDisconnect` has scheduled, oldest first. */
    var scheduled: seq<nat>
    /** The `fetchPrice` promises waiting for a price event. */
    var waiters: set<nat>
    const rateLimiter: QueueRateLimiter.RateLimiter<Outbound>

    ghost predicate Valid()
      reads this, rateLimiter
    {
      && reconnectAttempts <= MAX_RECONNECT_ATTEMPTS
      && lastPrice >= 0.0
      && (waiters != {} ==> lastPrice == 0.0)
      && rateLimiter.Valid()
      && rateLimiter.rateLimit == MESSAGES_PER_SECOND
    }

    /** The constructor connects at once; `createFails` says whether creating
        the socket throws (then a reconnect is scheduled). */
    constructor(now: real, createFails: bool)
      requires now >= 0.0
      ensures Valid() && fresh(rateLimiter) && rateLimiter.submitted == []
      ensures lastPrice == 0.0 && waiters == {} && heartbeatInterval == None
      ensures createFails ==> ws == NoSocket && reconnectAttempts == 1 && scheduled == [RECONNECT_DELAY]
      ensures !createFails ==> ws == Socket(Connecting) && reconnectAttempts == 0 && scheduled == []
    {
      ws := NoSocket;
      lastPrice := 0.0;
      reconnectAttempts := 0;
      heartbeatInterval := None;
      scheduled := [];
      waiters := {};
      rateLimiter := new QueueRateLimiter.RateLimiter(MESSAGES_PER_SECOND, None, now);
      new;
      var retry := Connect(createFails);
    }

    /** `connect`: a new socket in state CONNECTING, or, when creating it
        throws, `handleDisconnect`. */
    method Connect(createFails: bool) returns (retry: Option<nat>)
      requires Valid()
      modifies this`ws, this`reconnectAttempts, this`scheduled
      ensures Valid() && scheduled == old(scheduled) + Scheduled(retry)
      ensures !createFails ==>
        ws == Socket(Connecting) && reconnectAttempts == old(reconnectAttempts) && retry == None
      ensures createFails ==> ws == old(ws)
      ensures createFails ==>
        Decision(reconnectAttempts, retry) == NextAttempt(old(reconnectAttempts), MAX_RECONNECT_ATTEMPTS, RECONNECT_DELAY)
    {
      if createFails {
        retry := HandleDisconnect();
      } else {
        ws := Socket(Connecting);
        retry := None;
      }
    }

    /** `handleDisconnect`: schedule `connect` after RECONNECT_DELAY times the
        new attempt count, unless the attempts are used up. */
    method HandleDisconnect() returns (retry: Option<nat>)
      requires Valid()
      modifies this`reconnectAttempts, this`scheduled
      ensures Valid() && scheduled == old(scheduled) + Scheduled(retry)
      ensures Decision(reconnectAttempts, retry) == NextAttempt(old(reconnectAttempts), MAX_RECONNECT_ATTEMPTS, RECONNECT_DELAY)
    {
      if reconnectAttempts < MAX_RECONNECT_ATTEMPTS {
        reconnectAttempts := reconnectAttempts + 1;
        retry := Some(RECONNECT_DELAY * reconnectAttempts);
        scheduled := scheduled + [RECONNECT_DELAY * reconnectAttempts];
      } else {
        retry := None;
      }
    }

    /** The socket's 'open' event: reset the attempts, queue the subscription
        on the rate limiter and start the heartbeat. */
    method OnOpen(now: real)
      requires Valid() && ws.Socket? && now >= rateLimiter.clock
      modifies this`ws, this`reconnectAttempts, this`heartbeatInterval, rateLimiter
      ensures Valid() && ws == Socket(Open) && reconnectAttempts == 0 && heartbeatInterval == Some(HEARTBEAT_INTERVAL_MS)
      ensures rateLimiter.submitted == old(rateLimiter.submitted) + [SubscribeMessage]
    {
      ws := Socket(Open);
      reconnectAttempts := 0;
      Subscribe(now);
      StartHeartbeat();
    }

    /** `subscribe`: only an open socket queues the subscription. */
    method Subscribe(now: real)
      requires Valid() && now >= rateLimiter.clock
      modifies rateLimiter
      ensures Valid()
      ensures ws == Socket(Open) ==> rateLimiter.submitted == old(rateLimiter.submitted) + [SubscribeMessage]
      ensures ws != Socket(Open) ==> unchanged(rateLimiter)
    {
      if ws.Socket? && ws.readyState == Open {
        rateLimiter.Execute(SubscribeMessage, now);
      }
    }

    method StartHeartbeat()
      modifies this`heartbeatInterval
      ensures heartbeatInterval == Some(HEARTBEAT_INTERVAL_MS)
    {
      heartbeatInterval := Some(HEARTBEAT_INTERVAL_MS);
    }

    method StopHeartbeat()
      modifies this`heartbeatInterval
      ensures heartbeatInterval == None
    {
      if heartbeatInterval.Some? {
        heartbeatInterval := None;
      }
    }

    /** The heartbeat interval fires: an open socket is sent a heartbeat
        message at once. */
    method OnHeartbeatTimer() returns (sent: bool)
      requires Valid() && heartbeatInterval.Some?
      ensures sent <==> ws == Socket(Open)
    {
      sent := ws.Socket? && ws.readyState == Open;
    }

    /** The 'message' event; `data` is None when `JSON.parse` throws. A price
        updates `lastPrice` and resolves every waiting `fetchPrice`. */
    method OnMessage(pf: FloatParser, data: Option<Json>) returns (emitted: Option<real>, resolved: set<nat>)
      requires Valid()
      modifies this`lastPrice, this`waiters
      ensures Valid()
      ensures data.None? ==> emitted == None
      ensures data.Some? ==> emitted == TickerPrice(pf, data.value)
      ensures emitted.Some? ==> lastPrice == emitted.value && resolved == old(waiters) && waiters == {}
      ensures emitted.None? ==> lastPrice == old(lastPrice) && resolved == {} && waiters == old(waiters)
      ensures old(lastPrice) > 0.0 ==> lastPrice > 0.0
    {
      emitted, resolved := None, {};
      if data.Some? {
        var price := TickerPrice(pf, data.value);
        if price.Some? {
          lastPrice := price.value;
          emitted := price;
          resolved := waiters;
          waiters := {};
        }
      }
    }

    /** The 'close' event: stop the heartbeat and reconnect. */
    method OnClose() returns (retry: Option<nat>)
      requires Valid()
      modifies this`ws, this`heartbeatInterval, this`reconnectAttempts, this`scheduled
      ensures Valid() && heartbeatInterval == None && scheduled == old(scheduled) + Scheduled(retry)
      ensures ws == (if old(ws).Socket? then Socket(Closed) else NoSocket)
      ensures Decision(reconnectAttempts, retry) == NextAttempt(old(reconnectAttempts), MAX_RECONNECT_ATTEMPTS, RECONNECT_DELAY)
    {
      if ws.Socket? {
        ws := Socket(Closed);
      }
      StopHeartbeat();
      retry := HandleDisconnect();
    }

    /** The 'error' event: stop the heartbeat and reconnect. */
    method OnError() returns (retry: Option<nat>)
      requires Valid()
      modifies this`heartbeatInterval, this`reconnectAttempts, this`scheduled
      ensures Valid() && heartbeatInterval == None && scheduled == old(scheduled) + Scheduled(retry)
      ensures Decision(reconnectAttempts, retry) == NextAttempt(old(reconnectAttempts), MAX_RECONNECT_ATTEMPTS, RECONNECT_DELAY)
    {
      StopHeartbeat();
      retry := HandleDisconnect();
    }

    /** `fetchPrice`: the cached price at once when there is one; otherwise the
        promise `id` waits for the next price, with a timeout. */
    method FetchPrice(id: nat) returns (reply: FetchReply)
      requires Valid() && id !in waiters
      modifies this`waiters
      ensures Valid()
      ensures old(lastPrice) > 0.0 ==> reply == Resolved(lastPrice) && waiters == old(waiters)
      ensures old(lastPrice) <= 0.0 ==> reply == Waiting(PRICE_TIMEOUT_MS) && waiters == old(waiters) + {id}
    {
      if lastPrice > 0.0 {
        reply := Resolved(lastPrice);
      } else {
        reply := Waiting(PRICE_TIMEOUT_MS);
        waiters := waiters + {id};
      }
    }

    /** The timeout of a waiting `fetchPrice`: it stops waiting and rejects. */
    method OnFetchTimeout(id: nat) returns (message: string)
      requires Valid() && id in waiters
      modifies this`waiters
      ensures Valid() && waiters == old(waiters) - {id}
      ensures message == TIMEOUT_MESSAGE
    {
      waiters := waiters - {id};
      message := TIMEOUT_MESSAGE;
    }

    /** `disconnect`: stop the heartbeat and drop the socket. The attempt count is
        left as it is, so the 'close' event that follows still reconnects. */
    method Disconnect()
      requires Valid()
      modifies this`ws, this`heartbeatInterval
      ensures Valid() && ws == NoSocket && heartbeatInterval == None
    {
      StopHeartbeat();
      if ws.Socket? {
        ws := NoSocket;
      }
    }
  }
}
