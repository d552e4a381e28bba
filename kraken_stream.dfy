/** The Kraken WebSocket connector. Each socket event is a method the event
    loop calls; each timer that a handler sets is returned to the caller (a
    reconnect delay) or recorded in a field (the ping interval). A `fetchPrice`
    promise that is still waiting is an id in `waiters`. */
module KrakenStream {
  import opened Js
  import opened Streams
  import QueueRateLimiter

  const MAX_RECONNECT_ATTEMPTS: nat := 3
  const RECONNECT_DELAY: nat := 10000
  const PING_INTERVAL_MS: nat := 30000
  const PRICE_TIMEOUT_MS: nat := 10000
  const MESSAGES_PER_SECOND: real := 2.0
  const TIMEOUT_MESSAGE := "Timeout waiting for Kraken price"

  /** A ticker frame: an array whose third element is "ticker" and whose
      fourth is the pair "XBT/USD". */
  predicate IsTicker(message: Json) {
    message.JArray? && OptAt(message, 2) == JString("ticker") && OptAt(message, 3) == JString("XBT/USD")
  }

  /** `message[1].c[0]`, the last trade of the ticker payload; it throws when
      the payload or its `c` is null or undefined. */
  function LastTrade(message: Json): Result<Json> {
    match Get(OptAt(message, 1), "c")
    case Err(m) => Err(m)
    case Ok(c) => At(c, 0)
  }

  /** `handleMessage`: the price a message carries, when it is a ticker frame
      whose last trade parses to a positive number. Anything else, the
      subscription status included, leaves the connector as it was. */
  function TickerPrice(pf: FloatParser, message: Json): (r: Option<real>)
    ensures r.Some? <==>
      IsTicker(message) && LastTrade(message).Ok? && IsPositive(ParseFloat(pf, LastTrade(message).value))
    ensures r.Some? ==> r.value > 0.0 && ParseFloat(pf, LastTrade(message).value) == Num(r.value)
    ensures !message.JArray? ==> r.None?
  {
    if !IsTicker(message) then None
    else
      match LastTrade(message)
      case Err(_) => None
      case Ok(last) =>
        var price := ParseFloat(pf, last);
        if IsPositive(price) then Some(price.value) else None
  }

  /** A ticker frame as Kraken sends it carries the price of its last trade;
      the subscription confirmation carries none. */
  lemma TickerFrameExample(pf: FloatParser)
    requires pf("65000.1") == Num(650001.0 / 10.0)
    ensures TickerPrice(pf, JArray([
      JNumber("42"),
      JObject(map["c" := JArray([JString("65000.1"), JString("0.5")])]),
      JString("ticker"),
      JString("XBT/USD")])) == Some(650001.0 / 10.0)
    ensures TickerPrice(pf, JObject(map["event" := JString("subscriptionStatus"),
                                        "status" := JString("subscribed")])) == None
  {
    var frame := JArray([
      JNumber("42"),
      JObject(map["c" := JArray([JString("65000.1"), JString("0.5")])]),
      JString("ticker"),
      JString("XBT/USD")]);
    assert LastTrade(frame) == Ok(JString("65000.1"));
  }

  class KrakenApiService {
    var ws: Ws
    var lastPrice: real
    var reconnectAttempts: nat
    /** The period of the timer held in `pingInterval`, when one is set. */
    var pingInterval: Option<nat>
    /** The delays of the reconnects `handleDisconnect` has scheduled, oldest first. */
    var scheduled: seq<nat>
    /** The `fetchPrice` promises waiting for a price event. */
    var waiters: set<nat>
    const rateLimiter: QueueRateLimiter.RateLimiter<Outbound>

    ghost predicate Valid()
      reads this, rateLimiter
    {
      && reconnectAttempts <= MAX_RECONNECT_ATTEMPTS
      && lastPrice >= 0.0
      && (waiters != {} ==> lastPrice == 0.0)
      && rateLimiter.Valid()
      && rateLimiter.rateLimit == MESSAGES_PER_SECOND
    }

    /** The constructor connects at once; `createFails` says whether creating
        the socket throws (then a reconnect is scheduled). */
    constructor(now: real, createFails: bool)
      requires now >= 0.0
      ensures Valid() && fresh(rateLimiter) && rateLimiter.submitted == []
      ensures lastPrice == 0.0 && waiters == {} && pingInterval == None
      ensures createFails ==> ws == NoSocket && reconnectAttempts == 1 && scheduled == [RECONNECT_DELAY]
      ensures !createFails ==> ws == Socket(Connecting) && reconnectAttempts == 0 && scheduled == []
    {
      ws := NoSocket;
      lastPrice := 0.0;
      reconnectAttempts := 0;
      pingInterval := None;
      scheduled := [];
      waiters := {};
      rateLimiter := new QueueRateLimiter.RateLimiter(MESSAGES_PER_SECOND, None, now);
      new;
      var retry := Connect(createFails);
    }

    /** `connect`: a new socket in state CONNECTING, or, when creating it
        throws, `handleDisconnect`. */
    method Connect(createFails: bool) returns (retry: Option<nat>)
      requires Valid()
      modifies this`ws, this`reconnectAttempts, this`scheduled
      ensures Valid() && scheduled == old(scheduled) + Scheduled(retry)
      ensures !createFails ==>
        ws == Socket(Connecting) && reconnectAttempts == old(reconnectAttempts) && retry == None
      ensures createFails ==> ws == old(ws)
      ensures createFails ==>
        Decision(reconnectAttempts, retry) == NextAttempt(old(reconnectAttempts), MAX_RECONNECT_ATTEMPTS, RECONNECT_DELAY)
    {
      if createFails {
        retry := HandleDisconnect();
      } else {
        ws := Socket(Connecting);
        retry := None;
      }
    }

    /** `handleDisconnect`: schedule `connect` after RECONNECT_DELAY times the
        new attempt count, unless the attempts are used up. */
    method HandleDisconnect() returns (retry: Option<nat>)
      requires Valid()
      modifies this`reconnectAttempts, this`scheduled
      ensures Valid() && scheduled == old(scheduled) + Scheduled(retry)
      ensures Decision(reconnectAttempts, retry) == NextAttempt(old(reconnectAttempts), MAX_RECONNECT_ATTEMPTS, RECONNECT_DELAY)
    {
      if reconnectAttempts < MAX_RECONNECT_ATTEMPTS {
        reconnectAttempts := reconnectAttempts + 1;
        retry := Some(RECONNECT_DELAY * reconnectAttempts);
        scheduled := scheduled + [RECONNECT_DELAY * reconnectAttempts];
      } else {
        retry := None;
      }
    }

    /** The socket's 'open' event: reset the attempts, queue the subscription
        on the rate limiter and start pinging. */
    method OnOpen(now: real)
      requires Valid() && ws.Socket? && now >= rateLimiter.clock
      modifies this`ws, this`reconnectAttempts, this`pingInterval, rateLimiter
      ensures Valid() && ws == Socket(Open) && reconnectAttempts == 0 && pingInterval == Some(PING_INTERVAL_MS)
      ensures rateLimiter.submitted == old(rateLimiter.submitted) + [SubscribeMessage]
    {
      ws := Socket(Open);
      reconnectAttempts := 0;
      Subscribe(now);
      StartPing();
    }

    /** `subscribe`: only an open socket queues the subscription. */
    method Subscribe(now: real)
      requires Valid() && now >= rateLimiter.clock
      modifies rateLimiter
      ensures Valid()
      ensures ws == Socket(Open) ==> rateLimiter.submitted == old(rateLimiter.submitted) + [SubscribeMessage]
      ensures ws != Socket(Open) ==> unchanged(rateLimiter)
    {
      if ws.Socket? && ws.readyState == Open {
        rateLimiter.Execute(SubscribeMessage, now);
      }
    }

    method StartPing()
      modifies this`pingInterval
      ensures pingInterval == Some(PING_INTERVAL_MS)
    {
      pingInterval := Some(PING_INTERVAL_MS);
    }

    method StopPing()
      modifies this`pingInterval
      ensures pingInterval == None
    {
      if pingInterval.Some? {
        pingInterval := None;
      }
    }

    /** The ping interval fires: an open socket queues a ping on the rate limiter. */
    method OnPingTimer(now: real)
      requires Valid() && pingInterval.Some? && now >= rateLimiter.clock
      modifies rateLimiter
      ensures Valid()
      ensures ws == Socket(Open) ==> rateLimiter.submitted == old(rateLimiter.submitted) + [PingFrame]
      ensures ws != Socket(Open) ==> unchanged(rateLimiter)
    {
      if ws.Socket? && ws.readyState == Open {
        rateLimiter.Execute(PingFrame, now);
      }
    }

    /** The 'message' event; `data` is None when `JSON.parse` throws. A price
        updates `lastPrice` and resolves every waiting `fetchPrice`. */
    method OnMessage(pf: FloatParser, data: Option<Json>) returns (emitted: Option<real>, resolved: set<nat>)
      requires Valid()
      modifies this`lastPrice, this`waiters
      ensures Valid()
      ensures data.None? ==> emitted == None
      ensures data.Some? ==> emitted == TickerPrice(pf, data.value)
      ensures emitted.Some? ==> lastPrice == emitted.value && resolved == old(waiters) && waiters == {}
      ensures emitted.None? ==> lastPrice == old(lastPrice) && resolved == {} && waiters == old(waiters)
      ensures old(lastPrice) > 0.0 ==> lastPrice > 0.0
    {
      emitted, resolved := None, {};
      if data.Some? {
        var price := TickerPrice(pf, data.value);
        if price.Some? {
          lastPrice := price.value;
          emitted := price;
          resolved := waiters;
          waiters := {};
        }
      }
    }

    /** The 'close' event: stop pinging and reconnect. */
    method OnClose() returns (retry: Option<nat>)
      requires Valid()
      modifies this`ws, this`pingInterval, this`reconnectAttempts, this`scheduled
      ensures Valid() && pingInterval == None && scheduled == old(scheduled) + Scheduled(retry)
      ensures ws == (if old(ws).Socket? then Socket(Closed) else NoSocket)
      ensures Decision(reconnectAttempts, retry) == NextAttempt(old(reconnectAttempts), MAX_RECONNECT_ATTEMPTS, RECONNECT_DELAY)
    {
      if ws.Socket? {
        ws := Socket(Closed);
      }
      StopPing();
      retry := HandleDisconnect();
    }

    /** The 'error' event: stop pinging and reconnect. */
    method OnError() returns (retry: Option<nat>)
      requires Valid()
      modifies this`pingInterval, this`reconnectAttempts, this`scheduled
      ensures Valid() && pingInterval == None && scheduled == old(scheduled) + Scheduled(retry)
      ensures Decision(reconnectAttempts, retry) == NextAttempt(old(reconnectAttempts), MAX_RECONNECT_ATTEMPTS, RECONNECT_DELAY)
    {
      StopPing();
      retry := HandleDisconnect();
    }

    /** `fetchPrice`: the cached price at once when there is one; otherwise the
        promise `id` waits for the next price, with a timeout. */
    method FetchPrice(id: nat) returns (reply: FetchReply)
      requires Valid() && id !in waiters
      modifies this`waiters
      ensures Valid()
      ensures old(lastPrice) > 0.0 ==> reply == Resolved(lastPrice) && waiters == old(waiters)
      ensures old(lastPrice) <= 0.0 ==> reply == Waiting(PRICE_TIMEOUT_MS) && waiters == old(waiters) + {id}
    {
      if lastPrice > 0.0 {
        reply := Resolved(lastPrice);
      } else {
        reply := Waiting(PRICE_TIMEOUT_MS);
        waiters := waiters + {id};
      }
    }

    /** The timeout of a waiting `fetchPrice`: it stops waiting and rejects. */
    method OnFetchTimeout(id: nat) returns (message: string)
      requires Valid() && id in waiters
      modifies this`waiters
      ensures Valid() && waiters == old(waiters) - {id}
      ensures message == TIMEOUT_MESSAGE
    {
      waiters := waiters - {id};
      message := TIMEOUT_MESSAGE;
    }

    /** `disconnect`: stop pinging and drop the socket. The attempt count is
        left as it is, so the 'close' event that follows still reconnects. */
    method Disconnect()
      requires Valid()
      modifies this`ws, this`pingInterval
      ensures Valid() && ws == NoSocket && pingInterval == None
    {
      StopPing();
      if ws.Socket? {
        ws := NoSocket;
      }
    }
  }
}
