/** The server's `BaseApiService.fetchWithRetry`: up to `retries` attempts,
    each under its own 15-second abort timer, with a 5-second pause after
    every failed attempt but the last. The k-th fetch of a call is answered
    by `net(k)`; the pauses taken are returned in order. */
module ServerRetry {
  import opened Js
  import opened Http

  const DEFAULT_RETRIES: nat := 3
  const RETRY_DELAY_MS: nat := 5000
  const ATTEMPT_TIMEOUT_MS: nat := 15000
  const ALL_RETRIES_FAILED := "All retries failed"

  /** One attempt: the fetch, aborted after 15 s, and the status check. */
  function Attempt(o: FetchOutcome): Result<Response> {
    CheckedFetch(o, ATTEMPT_TIMEOUT_MS)
  }

  /** The first `n` attempts all failed. */
  ghost predicate AllFailed(net: Network, n: nat) {
    forall k :: 0 <= k < n ==> Attempt(net(k)).Err?
  }

  method FetchWithRetry(net: Network, retries: nat) returns (r: Result<Response>, attempts: nat, waits: seq<nat>)
    ensures attempts <= retries && (retries > 0 ==> attempts > 0)
    ensures r.Ok? ==> attempts > 0 && AllFailed(net, attempts - 1) && r == Attempt(net(attempts - 1))
    ensures r.Err? ==> attempts == retries && AllFailed(net, retries)
    ensures r.Err? && retries == 0 ==> r == Err(ALL_RETRIES_FAILED)
    ensures r.Err? && retries > 0 ==> r == Attempt(net(retries - 1))
    ensures |waits| == (if attempts == 0 then 0 else attempts - 1)
    ensures forall k :: 0 <= k < |waits| ==> waits[k] == RETRY_DELAY_MS
  {
    var lastError: Option<string> := None;
    attempts, waits := 0, [];
    for i := 0 to retries
      invariant attempts == i && AllFailed(net, i)
      invariant i == 0 ==> lastError == None
      invariant i > 0 ==> lastError == Some(Attempt(net(i - 1)).message)
      invariant |waits| == (if 0 < i == retries then i - 1 else i)
      invariant forall k :: 0 <= k < |waits| ==> waits[k] == RETRY_DELAY_MS
    {
      var outcome := Attempt(net(i));
      attempts := attempts + 1;
      if outcome.Ok? {
        r := outcome;
        return;
      }
      lastError := Some(outcome.message);
      if i < retries - 1 {
        waits := waits + [RETRY_DELAY_MS];
      }
    }
    r := Err(if lastError.Some? then lastError.value else ALL_RETRIES_FAILED);
  }

  /** `fetchWithRetry(url)` with the `retries` argument left at its default
      of three: at least one and at most three attempts, at most two pauses. */
  method FetchWithDefaultRetries(net: Network) returns (r: Result<Response>, attempts: nat, waits: seq<nat>)
    ensures 1 <= attempts <= DEFAULT_RETRIES && |waits| == attempts - 1 < DEFAULT_RETRIES
    ensures r.Ok? <==> exists k :: 0 <= k < DEFAULT_RETRIES && Attempt(net(k)).Ok?
    ensures r.Ok? ==> AllFailed(net, attempts - 1) && r == Attempt(net(attempts - 1))
    ensures r.Err? ==> r == Attempt(net(DEFAULT_RETRIES - 1))
  {
    r, attempts, waits := FetchWithRetry(net, DEFAULT_RETRIES);
    if r.Err? {
      assert AllFailed(net, DEFAULT_RETRIES);
    } else {
      assert Attempt(net(attempts - 1)).Ok?;
    }
  }
}
