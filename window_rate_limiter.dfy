/** The browser-side fixed-window request counter: at most `limit` counted
    requests per window of `windowMs` milliseconds. The clock (`Date.now()`)
    is the parameter `now`. */
module WindowRateLimiter {

  /** The two fields every method of the limiter updates. */
  datatype Window = Window(requestCount: nat, lastReset: int)

  /** `resetIfNeeded`: a window that has run for `windowMs` starts afresh at `now`. */
  function Reset(w: Window, now: int, windowMs: int): Window {
    if now - w.lastReset >= windowMs then Window(0, now) else w
  }

  /** `canMakeRequest`'s answer. */
  predicate Allowed(w: Window, now: int, limit: int, windowMs: int) {
    Reset(w, now, windowMs).requestCount < limit
  }

  /** `incrementRequests`. */
  function Increment(w: Window, now: int, windowMs: int): Window {
    var r := Reset(w, now, windowMs);
    Window(r.requestCount + 1, r.lastReset)
  }

  class RateLimiter {
    const limit: int
    const windowMs: int
    var requestCount: nat
    var lastReset: int

    function State(): Window
      reads this
    {
      Window(requestCount, lastReset)
    }

    constructor(limit: int, windowMs: int, now: int)
      ensures this.limit == limit && this.windowMs == windowMs
      ensures State() == Window(0, now)
    {
      this.limit := limit;
      this.windowMs := windowMs;
      requestCount := 0;
      lastReset := now;
    }

    method ResetIfNeeded(now: int)
      modifies this
      ensures State() == Reset(old(State()), now, windowMs)
      ensures now - old(lastReset) >= windowMs ==> requestCount == 0 && lastReset == now
      ensures now - old(lastReset) < windowMs ==> unchanged(this)
    {
      if now - lastReset >= windowMs {
        requestCount := 0;
        lastReset := now;
      }
    }

    method CanMakeRequest(now: int) returns (ok: bool)
      modifies this
      ensures State() == Reset(old(State()), now, windowMs)
      ensures ok == Allowed(old(State()), now, limit, windowMs)
      ensures ok <==> requestCount < limit
    {
      ResetIfNeeded(now);
      ok := requestCount < limit;
    }

    method IncrementRequests(now: int)
      modifies this
      ensures State() == Increment(old(State()), now, windowMs)
      ensures requestCount == Reset(old(State()), now, windowMs).requestCount + 1
    {
      ResetIfNeeded(now);
      requestCount := requestCount + 1;
    }
  }

  /** One rate-limited fetch (`exchangeApiService.fetchPrice`): a check at
      `checkAt`, then, when it was allowed and the fetch succeeded, an
      increment at `doneAt`. */
  datatype Call = Call(checkAt: int, doneAt: int, fetched: bool)

  function AfterCall(w: Window, c: Call, limit: int, windowMs: int): Window {
    var checked := Reset(w, c.checkAt, windowMs);
    if checked.requestCount < limit && c.fetched then Increment(checked, c.doneAt, windowMs) else checked
  }

  function AfterCalls(w: Window, calls: seq<Call>, limit: int, windowMs: int): Window
    decreases |calls|
  {
    if |calls| == 0 then w else AfterCalls(AfterCall(w, calls[0], limit, windowMs), calls[1..], limit, windowMs)
  }

  /** The calls happen in order, each increment no earlier than its check, all from `t` on. */
  predicate Chronological(t: int, calls: seq<Call>)
    decreases |calls|
  {
    |calls| == 0 || (t <= calls[0].checkAt <= calls[0].doneAt && Chronological(calls[0].doneAt, calls[1..]))
  }

  /** Increments made only after an allowed check never take the count past `limit`. */
  lemma {:induction false} GuardedCallsStayWithinLimit(w: Window, calls: seq<Call>, limit: int, windowMs: int)
    requires w.requestCount <= limit
    ensures AfterCalls(w, calls, limit, windowMs).requestCount <= limit
    decreases |calls|
  {
    if |calls| > 0 {
      GuardedCallsStayWithinLimit(AfterCall(w, calls[0], limit, windowMs), calls[1..], limit, windowMs);
    }
  }

  /** With a clock that never goes back, `lastReset` never decreases and never passes the clock. */
  lemma {:induction false} LastResetNeverDecreases(w: Window, calls: seq<Call>, limit: int, windowMs: int)
    requires Chronological(w.lastReset, calls)
    ensures w.lastReset <= AfterCalls(w, calls, limit, windowMs).lastReset
    ensures |calls| > 0 ==> AfterCalls(w, calls, limit, windowMs).lastReset <= calls[|calls| - 1].doneAt
    decreases |calls|
  {
    if |calls| > 0 {
      var w1 := AfterCall(w, calls[0], limit, windowMs);
      assert w.lastReset <= w1.lastReset <= calls[0].doneAt;
      ChronologicalFrom(w1.lastReset, calls[0].doneAt, calls[1..]);
      LastResetNeverDecreases(w1, calls[1..], limit, windowMs);
    }
  }

  lemma ChronologicalFrom(s: int, t: int, calls: seq<Call>)
    requires s <= t && Chronological(t, calls)
    ensures Chronological(s, calls)
  {
  }

  /** The number of calls that are granted and counted inside one window. */
  function Granted(count: nat, calls: seq<Call>, limit: int): nat
    decreases |calls|
  {
    if |calls| == 0 then 0
    else if count < limit && calls[0].fetched then 1 + Granted(count + 1, calls[1..], limit)
    else Granted(count, calls[1..], limit)
  }

  /** Calls that all fall inside the current window never reset it: the count
      grows by exactly the calls granted, so once it reaches `limit` every
      further check in that window is refused. */
  lemma {:induction false} OneWindow(w: Window, calls: seq<Call>, limit: int, windowMs: int)
    requires Chronological(w.lastReset, calls)
    requires forall k :: 0 <= k < |calls| ==> calls[k].doneAt - w.lastReset < windowMs
    ensures AfterCalls(w, calls, limit, windowMs)
      == Window(w.requestCount + Granted(w.requestCount, calls, limit), w.lastReset)
    ensures w.requestCount >= limit ==> AfterCalls(w, calls, limit, windowMs) == w
    decreases |calls|
  {
    if |calls| > 0 {
      var w1 := AfterCall(w, calls[0], limit, windowMs);
      assert w1.lastReset == w.lastReset;
      ChronologicalFrom(w.lastReset, calls[0].doneAt, calls[1..]);
      OneWindow(w1, calls[1..], limit, windowMs);
    }
  }
}
