/** What the three streaming connectors (Kraken, Coinbase, Binance) have in
    common: the socket's ready state, the messages they queue on their rate
    limiter, the answer `fetchPrice` gives, and the linear-backoff reconnect
    decision of `handleDisconnect`. */
module Streams {
  import opened Js

  /** `WebSocket.readyState` */
  datatype ReadyState = Connecting | Open | Closing | Closed

  /** The field `ws`: null, or the current socket and its ready state. */
  datatype Ws = NoSocket | Socket(readyState: ReadyState)

  /** What a connector hands its rate limiter to send. */
  datatype Outbound = SubscribeMessage | PingFrame

  /** `fetchPrice`: resolved at once with the cached price, or waiting for the
      next price event, with a timer that rejects after `timeoutMs`. */
  datatype FetchReply = Resolved(price: real) | Waiting(timeoutMs: nat)

  /** The outcome of `handleDisconnect`: the new attempt count and the delay
      after which `connect` is scheduled, if one is. */
  datatype Decision = Decision(attempts: nat, delayMs: Option<nat>)

  /** The reconnect timer a decision schedules, as a list of delays. */
  function Scheduled(retry: Option<nat>): seq<nat> {
    if retry.Some? then [retry.value] else []
  }

  /** `handleDisconnect`. */
  function NextAttempt(attempts: nat, maxAttempts: nat, baseDelayMs: nat): Decision {
    if attempts < maxAttempts then Decision(attempts + 1, Some(baseDelayMs * (attempts + 1)))
    else Decision(attempts, None)
  }

  /** `n` disconnects in a row, with no successful open in between: the final
      attempt count and the delays scheduled, in order. */
  function Disconnects(attempts: nat, n: nat, maxAttempts: nat, baseDelayMs: nat): (nat, seq<nat>)
    decreases n
  {
    if n == 0 then (attempts, [])
    else
      var d := NextAttempt(attempts, maxAttempts, baseDelayMs);
      var rest := Disconnects(d.attempts, n - 1, maxAttempts, baseDelayMs);
      (rest.0, (if d.delayMs.Some? then [d.delayMs.value] else []) + rest.1)
  }

  function Min(a: nat, b: nat): nat {
    if a < b then a else b
  }

  /** Linear backoff with a cap: from `attempts` (at most the cap), `n`
      disconnects schedule reconnects after base × (attempts + 1), base ×
      (attempts + 2), … until the cap is reached, and nothing after it. */
  lemma {:induction false} BackoffSchedule(attempts: nat, n: nat, maxAttempts: nat, baseDelayMs: nat)
    requires attempts <= maxAttempts
    ensures Disconnects(attempts, n, maxAttempts, baseDelayMs).0 == Min(attempts + n, maxAttempts)
    ensures |Disconnects(attempts, n, maxAttempts, baseDelayMs).1| == Min(n, maxAttempts - attempts)
    ensures forall k :: 0 <= k < |Disconnects(attempts, n, maxAttempts, baseDelayMs).1| ==>
      Disconnects(attempts, n, maxAttempts, baseDelayMs).1[k] == baseDelayMs * (attempts + k + 1)
    decreases n
  {
    if n > 0 {
      var d := NextAttempt(attempts, maxAttempts, baseDelayMs);
      BackoffSchedule(d.attempts, n - 1, maxAttempts, baseDelayMs);
      var rest := Disconnects(d.attempts, n - 1, maxAttempts, baseDelayMs).1;
      if attempts < maxAttempts {
        forall k | 0 < k < |rest| + 1
          ensures ([d.delayMs.value] + rest)[k] == baseDelayMs * (attempts + k + 1)
        {
          assert ([d.delayMs.value] + rest)[k] == rest[k - 1];
        }
      }
    }
  }

  /** Once the cap is reached, no further disconnect schedules anything. */
  lemma {:induction false} NothingPastTheCap(attempts: nat, n: nat, maxAttempts: nat, baseDelayMs: nat)
    requires attempts >= maxAttempts
    ensures Disconnects(attempts, n, maxAttempts, baseDelayMs) == (attempts, [])
    decreases n
  {
    if n > 0 {
      NothingPastTheCap(attempts, n - 1, maxAttempts, baseDelayMs);
      assert NextAttempt(attempts, maxAttempts, baseDelayMs) == Decision(attempts, None);
      assert [] + Disconnects(attempts, n - 1, maxAttempts, baseDelayMs).1 == [];
    }
  }
}
