/** The server-side rate limiter: a FIFO queue of tasks drained by one loop
    that keeps the start of consecutive tasks `1000 / rateLimit` milliseconds
    apart. The loop's `await setTimeout(...)` is modelled as the loop being
    suspended until `wakeAt`; `OnTimer` is that timer firing. The clock is the
    parameter `now`, and a task takes no time on it. */
module QueueRateLimiter {
  import opened Js

  /** Consecutive start times are at least `d` apart. */
  ghost predicate Spaced(s: seq<real>, d: real) {
    forall k :: 0 < k < |s| ==> s[k] - s[k - 1] >= d
  }

  class RateLimiter<T> {
    /** Requests per second. */
    const rateLimit: real
    /** Accepted by the constructor and never read. */
    const burstLimit: Option<nat>
    var lastRequest: real
    var requestQueue: seq<T>
    var processing: bool
    /** The drain loop is suspended in `setTimeout` until this time. */
    var wakeAt: Option<real>

    /** The latest time an event was seen. */
    ghost var clock: real
    /** Every task passed to `execute`, in order. */
    ghost var submitted: seq<T>
    /** Every task run (and so every promise `execute` resolved), in order. */
    ghost var ran: seq<T>
    /** When each task of `ran` started. */
    ghost var started: seq<real>

    function MinDelay(): real
      requires rateLimit > 0.0
    {
      1000.0 / rateLimit
    }

    /** Everything that holds between the steps of a drain. */
    ghost predicate Core()
      reads this
    {
      && rateLimit > 0.0
      && submitted == ran + requestQueue
      && |started| == |ran|
      && Spaced(started, MinDelay())
      && (forall k :: 0 <= k < |started| ==> started[k] <= clock)
      && lastRequest == (if |started| == 0 then 0.0 else started[|started| - 1])
      && 0.0 <= clock
    }

    /** Between events: the loop runs exactly while the queue is non-empty, and
        then it is suspended until `lastRequest + MinDelay()`. */
    ghost predicate Valid()
      reads this
    {
      && Core()
      && (processing <==> requestQueue != [])
      && (wakeAt.Some? <==> processing)
      && (wakeAt.Some? ==> wakeAt.value == lastRequest + MinDelay())
    }

    constructor(rateLimit: real, burstLimit: Option<nat>, now: real)
      requires rateLimit > 0.0 && now >= 0.0
      ensures Valid()
      ensures this.rateLimit == rateLimit && this.burstLimit == burstLimit
      ensures requestQueue == [] && !processing && lastRequest == 0.0
      ensures submitted == [] && ran == [] && clock == now
    {
      this.rateLimit := rateLimit;
      this.burstLimit := burstLimit;
      lastRequest := 0.0;
      requestQueue := [];
      processing := false;
      wakeAt := None;
      clock := now;
      submitted := [];
      ran := [];
      started := [];
    }

    /** `execute(fn)`: queue the task at the back and start a drain unless one is running. */
    method Execute(task: T, now: real)
      requires Valid() && now >= clock
      modifies this
      ensures Valid() && clock == now
      ensures submitted == old(submitted) + [task]
      ensures ran + requestQueue == old(ran + requestQueue) + [task]
      ensures old(processing) ==> ran == old(ran) && requestQueue == old(requestQueue) + [task]
      ensures !old(processing) && now - old(lastRequest) >= MinDelay() ==>
        ran == old(ran) + [task] && started == old(started) + [now] && requestQueue == []
      ensures !old(processing) && now - old(lastRequest) < MinDelay() ==>
        ran == old(ran) && requestQueue == [task] && wakeAt == Some(old(lastRequest) + MinDelay())
    {
      clock := now;
      requestQueue := requestQueue + [task];
      submitted := submitted + [task];
      ProcessQueue(now);
    }

    /** `processQueue`: returns at once when a drain is already running. */
    method ProcessQueue(now: real)
      requires Core() && now == clock && requestQueue != []
      requires processing <==> |requestQueue| > 1
      requires processing <==> wakeAt.Some?
      requires wakeAt.Some? ==> wakeAt.value == lastRequest + MinDelay()
      modifies this
      ensures Valid() && clock == now && submitted == old(submitted)
      ensures old(processing) ==> unchanged(this)
      ensures !old(processing) && now - old(lastRequest) >= MinDelay() ==>
        ran == old(ran) + [old(requestQueue)[0]] && started == old(started) + [now]
        && requestQueue == old(requestQueue)[1..]
      ensures !old(processing) && now - old(lastRequest) < MinDelay() ==>
        ran == old(ran) && requestQueue == old(requestQueue) && wakeAt == Some(old(lastRequest) + MinDelay())
    {
      if processing || |requestQueue| == 0 {
        return;
      }
      processing := true;
      RunLoop(now);
    }

    /** The `while` loop of `processQueue`, from its top. */
    method RunLoop(now: real)
      requires Core() && now == clock && processing && wakeAt.None?
      modifies this
      ensures Valid() && clock == now && submitted == old(submitted)
      ensures old(requestQueue) == [] ==> requestQueue == [] && ran == old(ran) && started == old(started)
      ensures old(requestQueue) != [] && now - old(lastRequest) >= MinDelay() ==>
        ran == old(ran) + [old(requestQueue)[0]] && started == old(started) + [now]
        && requestQueue == old(requestQueue)[1..]
      ensures old(requestQueue) != [] && now - old(lastRequest) < MinDelay() ==>
        ran == old(ran) && started == old(started) && requestQueue == old(requestQueue)
        && wakeAt == Some(old(lastRequest) + MinDelay())
    {
      while |requestQueue| > 0
        invariant Core() && clock == now && processing && wakeAt.None?
        invariant submitted == old(submitted)
        invariant ran + requestQueue == old(ran + requestQueue)
        invariant |ran| <= |old(ran)| + 1
        invariant |ran| == |old(ran)| ==>
          ran == old(ran) && started == old(started) && lastRequest == old(lastRequest)
          && requestQueue == old(requestQueue)
        invariant |ran| == |old(ran)| + 1 ==>
          started == old(started) + [now] && lastRequest == now && old(requestQueue) != []
          && now - old(lastRequest) >= MinDelay()
          && ran == old(ran) + [old(requestQueue)[0]] && requestQueue == old(requestQueue)[1..]
        decreases |requestQueue|
      {
        var timeSinceLastRequest := now - lastRequest;
        var minDelay := 1000.0 / rateLimit;
        if timeSinceLastRequest < minDelay {
          wakeAt := Some(now + (minDelay - timeSinceLastRequest));
          return;
        }
        RunNext(now);
      }
      processing := false;
    }

    /** `requestQueue.shift()`, run it, and `lastRequest = Date.now()`. */
    method RunNext(now: real)
      requires Core() && now == clock && requestQueue != []
      requires |started| > 0 ==> now - lastRequest >= MinDelay()
      modifies this`requestQueue, this`lastRequest, this`ran, this`started
      ensures Core()
      ensures ran == old(ran) + [old(requestQueue)[0]] && requestQueue == old(requestQueue)[1..]
      ensures started == old(started) + [now] && lastRequest == now
    {
      var request := requestQueue[0];
      requestQueue := requestQueue[1..];
      ran := ran + [request];
      started := started + [now];
      lastRequest := now;
    }

    /** The drain loop's timer fires: it runs the head task without reading the
        clock again, then goes back to the top of the loop. */
    method OnTimer(now: real)
      requires Valid() && wakeAt.Some? && now >= wakeAt.value && now >= clock
      modifies this
      ensures Valid() && clock == now && submitted == old(submitted)
      ensures ran == old(ran) + [old(requestQueue)[0]] && started == old(started) + [now]
      ensures requestQueue == old(requestQueue)[1..]
    {
      clock := now;
      wakeAt := None;
      RunNext(now);
      RunLoop(now);
    }
  }

  /** Spaced start times: `j - i` tasks after the i-th start at least `(j - i) · d`
      later, so a span of `L` milliseconds holds at most `L / d + 1` starts. */
  lemma {:induction false} SpacedStarts(s: seq<real>, d: real, i: nat, j: nat)
    requires Spaced(s, d) && i <= j < |s|
    ensures s[j] - s[i] >= (j - i) as real * d
    decreases j - i
  {
    if i < j {
      SpacedStarts(s, d, i, j - 1);
    }
  }
}
