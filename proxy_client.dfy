/** The browser's `BaseApiService`: every request goes through one of three
    CORS proxies, starting from the one that last worked, and whole proxy
    rounds are retried with exponential backoff. The static field
    `corsProxyIndex` is the one field of the class `BaseApiService` below. The
    j-th fetch a call makes, counted from `start`, is answered by `net(start + j)`;
    the per-fetch timeout and the retry settings are parameters. */
module ProxyClient {
  import opened Js
  import opened Http

  const PROXY_COUNT: nat := 3
  const ALL_RETRIES_FAILED := "All retries failed"
  const ALL_PROXIES_FAILED := "All proxies failed"

  /** What each fetch yields once its status is checked: the fetch numbered
      `j` answers `Checked(net, timeoutMs)(j)`. */
  type Answers = nat -> Result<Response>

  function Checked(net: Network, timeoutMs: nat): (answers: Answers)
    ensures forall j :: answers(j) == CheckedFetch(net(j), timeoutMs)
  {
    (j: nat) => CheckedFetch(net(j), timeoutMs)
  }

  /** The fetch numbered `j` fails. */
  predicate Fails(answers: Answers, j: nat) {
    answers(j).Err?
  }

  /** The `n` fetches from `start` on all fail. */
  ghost predicate AllFail(answers: Answers, start: nat, n: nat) {
    forall j :: start <= j < start + n ==> Fails(answers, j)
  }

  /** How many fetches are made when fetching stops at the first success, or
      after `bound` fetches. */
  function FetchesUntilOk(answers: Answers, start: nat, bound: nat): (n: nat)
    ensures n <= bound && (bound > 0 ==> n > 0)
    decreases bound
  {
    if bound == 0 then 0
    else if !Fails(answers, start) then 1
    else 1 + FetchesUntilOk(answers, start + 1, bound - 1)
  }

  /** The fetches counted are failures up to the last one, and the last one
      succeeds unless the bound cut fetching short. */
  lemma {:induction false} FetchesUntilOkStops(answers: Answers, start: nat, bound: nat)
    ensures var n := FetchesUntilOk(answers, start, bound);
      && (n > 0 ==> AllFail(answers, start, n - 1))
      && (0 < n < bound ==> !Fails(answers, start + n - 1))
    decreases bound
  {
    if bound > 0 && Fails(answers, start) {
      FetchesUntilOkStops(answers, start + 1, bound - 1);
    }
  }

  /** After `a` failed fetches, fetching on counts them and carries on. */
  lemma {:induction false} FetchesAfterFailures(answers: Answers, start: nat, a: nat, b: nat)
    requires AllFail(answers, start, a)
    ensures FetchesUntilOk(answers, start, a + b) == a + FetchesUntilOk(answers, start + a, b)
    decreases a
  {
    if a > 0 {
      assert Fails(answers, start);
      FetchesAfterFailures(answers, start + 1, a - 1, b);
    }
  }

  /** Fetching stops at the first success: `n` fetches are made when the
      first `n - 1` fail and the n-th does not, whatever the bound beyond `n`. */
  lemma {:induction false} FetchesStopAtSuccess(answers: Answers, start: nat, bound: nat, n: nat)
    requires 0 < n <= bound
    requires AllFail(answers, start, n - 1) && !Fails(answers, start + n - 1)
    ensures FetchesUntilOk(answers, start, bound) == n
    decreases n
  {
    if n > 1 {
      assert Fails(answers, start);
      FetchesStopAtSuccess(answers, start + 1, bound - 1, n - 1);
    }
  }

  /** At most three fetches per round: the fetches `retries` rounds may make. */
  function Budget(retries: nat): nat {
    if retries == 0 then 0 else Budget(retries - 1) + PROXY_COUNT
  }

  /** Whole rounds of fetches bring the rotation back to the same proxy. */
  lemma {:induction false} WholeRounds(x: nat, i: nat)
    ensures (x + Budget(i)) % PROXY_COUNT == x % PROXY_COUNT
    decreases i
  {
    if i > 0 {
      WholeRounds(x, i - 1);
    }
  }

  /** Budgets only grow with more rounds. */
  lemma {:induction false} BudgetGrows(i: nat, j: nat)
    requires i <= j
    ensures Budget(i) <= Budget(j)
    decreases j
  {
    if i < j {
      BudgetGrows(i, j - 1);
    }
  }

  /** The proxy that answered in round `i` is the one the rotation reached:
      the failed rounds before it went once round all the proxies. */
  lemma RoundIndex(index: nat, r: Result<Response>, i: nat, used: nat)
    requires r.Ok? && used > 0
    ensures IndexAfter(index, r, Budget(i) + used) == IndexAfter(index, r, used)
  {
    WholeRounds(index + used - 1, i);
  }

  /** What the retry loop establishes, round by round: it stops in round
      `rounds` at the first fetch that succeeds, or spends the whole budget,
      and returns what its last fetch yielded. */
  ghost predicate RetryOutcome(answers: Answers, start: nat, retries: nat, rounds: nat, fetches: nat, r: Result<Response>) {
    && rounds <= retries && (retries > 0 ==> rounds > 0)
    && (if rounds == 0 then fetches == 0 else Budget(rounds - 1) < fetches <= Budget(rounds))
    && (fetches > 0 ==> AllFail(answers, start, fetches - 1))
    && r == (if fetches == 0 then Err(ALL_RETRIES_FAILED) else answers(start + fetches - 1))
    && (r.Err? ==> fetches == Budget(retries))
  }

  /** The rounds add up to one sequence of fetches that stops at the first
      success within `retries` rounds of three. */
  lemma RetryOutcomeIsRetryResult(answers: Answers, start: nat, retries: nat, rounds: nat, fetches: nat, r: Result<Response>)
    requires RetryOutcome(answers, start, retries, rounds, fetches, r)
    ensures fetches == FetchesUntilOk(answers, start, Budget(retries))
    ensures r == RetryResult(answers, start, retries)
  {
    if r.Ok? {
      BudgetGrows(rounds, retries);
      FetchesStopAtSuccess(answers, start, Budget(retries), fetches);
    } else if retries > 0 {
      assert Fails(answers, start + fetches - 1);
      FetchesAfterFailures(answers, start, Budget(retries), 0);
    }
  }

  /** `corsProxyIndex` after a call that made `fetches` fetches: the proxy of
      the last fetch when it succeeded, otherwise unchanged. */
  function IndexAfter(index: nat, result: Result<Response>, fetches: nat): nat {
    if result.Ok? && fetches > 0 then (index + fetches - 1) % PROXY_COUNT else index
  }

  /** What a call to `fetchWithRetry(url, options, retries)` returns. */
  function RetryResult(answers: Answers, start: nat, retries: nat): (r: Result<Response>)
    ensures retries == 0 ==> r == Err(ALL_RETRIES_FAILED)
    ensures retries > 0 ==> r == answers(start + FetchesUntilOk(answers, start, Budget(retries)) - 1)
  {
    if retries == 0 then Err(ALL_RETRIES_FAILED)
    else answers(start + FetchesUntilOk(answers, start, Budget(retries)) - 1)
  }

  /** `corsProxyIndex` after a call of `fetchWithRetry(url, options, retries)`
      that started from `index`: unchanged when every round failed. */
  function RetryIndex(index: nat, answers: Answers, start: nat, retries: nat): (i: nat)
    ensures index < PROXY_COUNT ==> i < PROXY_COUNT
    ensures RetryResult(answers, start, retries).Err? ==> i == index
  {
    IndexAfter(index, RetryResult(answers, start, retries), FetchesUntilOk(answers, start, Budget(retries)))
  }

  /** `Math.pow(b, n)` for a whole exponent. */
  function Pow(b: real, n: nat): real {
    if n == 0 then 1.0 else b * Pow(b, n - 1)
  }

  /** The pause after the failed round `i`: `retryDelay * Math.pow(backoff, i)`. */
  function Backoff(intervalMs: real, backoff: real, i: nat): real {
    intervalMs * Pow(backoff, i)
  }

  class BaseApiService {
    var corsProxyIndex: nat

    ghost predicate Valid()
      reads this
    {
      corsProxyIndex < PROXY_COUNT
    }

    constructor()
      ensures Valid() && corsProxyIndex == 0
    {
      corsProxyIndex := 0;
    }

    /** `fetchWithProxy`: try the proxies in turn from `corsProxyIndex`, each
        once, and remember the one that answered. `tried` lists the proxies
        in the order they were tried. */
    method FetchWithProxy(net: Network, start: nat, timeoutMs: nat)
      returns (r: Result<Response>, used: nat, tried: seq<nat>)
      requires Valid()
      modifies this
      ensures Valid()
      ensures used == FetchesUntilOk(Checked(net, timeoutMs), start, PROXY_COUNT)
      ensures r == Checked(net, timeoutMs)(start + used - 1)
      ensures 0 < used <= PROXY_COUNT && AllFail(Checked(net, timeoutMs), start, used - 1)
      ensures r.Err? ==> used == PROXY_COUNT && AllFail(Checked(net, timeoutMs), start, PROXY_COUNT)
      ensures corsProxyIndex == IndexAfter(old(corsProxyIndex), r, used)
      ensures |tried| == used && forall i :: 0 <= i < used ==> tried[i] == (old(corsProxyIndex) + i) % PROXY_COUNT
    {
      ghost var answers := Checked(net, timeoutMs);
      var lastError: Option<string> := None;
      tried := [];
      for i := 0 to PROXY_COUNT
        invariant corsProxyIndex == old(corsProxyIndex) && AllFail(answers, start, i)
        invariant |tried| == i && forall k :: 0 <= k < i ==> tried[k] == (old(corsProxyIndex) + k) % PROXY_COUNT
        invariant i > 0 ==> lastError.Some? && answers(start + i - 1) == Err(lastError.value)
      {
        tried := tried + [(corsProxyIndex + i) % PROXY_COUNT];
        var response := CheckedFetch(net(start + i), timeoutMs);
        assert response == answers(start + i);
        if response.Ok? {
          FetchesStopAtSuccess(answers, start, PROXY_COUNT, i + 1);
          corsProxyIndex := (corsProxyIndex + i) % PROXY_COUNT;
          r, used := response, i + 1;
          return;
        }
        lastError := Some(response.message);
      }
      FetchesAfterFailures(answers, start, PROXY_COUNT, 0);
      r := Err(if lastError.Some? then lastError.value else ALL_PROXIES_FAILED);
      used := PROXY_COUNT;
    }

    /** `fetchWithRetry`: up to `retries` proxy rounds, waiting
        intervalMs · backoff^i after the failed round i when another follows.
        `rounds` counts the calls of `fetchWithProxy`. */
    method FetchWithRetry(net: Network, start: nat, timeoutMs: nat, retries: nat, intervalMs: real, backoff: real)
      returns (r: Result<Response>, fetches: nat, rounds: nat, waits: seq<real>)
      requires Valid()
      modifies this
      ensures Valid()
      ensures RetryOutcome(Checked(net, timeoutMs), start, retries, rounds, fetches, r)
      ensures corsProxyIndex == IndexAfter(old(corsProxyIndex), r, fetches)
      ensures |waits| == (if rounds == 0 then 0 else rounds - 1)
      ensures forall i :: 0 <= i < |waits| ==> waits[i] == Backoff(intervalMs, backoff, i)
    {
      ghost var answers := Checked(net, timeoutMs);
      var lastError: Option<string> := None;
      fetches, rounds, waits := 0, 0, [];
      for i := 0 to retries
        invariant rounds == i && fetches == Budget(i) && AllFail(answers, start, fetches)
        invariant corsProxyIndex == old(corsProxyIndex)
        invariant i == 0 ==> lastError == None
        invariant i > 0 ==> lastError.Some? && answers(start + fetches - 1) == Err(lastError.value)
        invariant |waits| == (if 0 < i == retries then i - 1 else i)
        invariant forall k :: 0 <= k < |waits| ==> waits[k] == Backoff(intervalMs, backoff, k)
      {
        var response, used, tried := FetchWithProxy(net, start + fetches, timeoutMs);
        rounds := rounds + 1;
        if response.Ok? {
          assert Budget(i + 1) == Budget(i) + PROXY_COUNT;
          RoundIndex(old(corsProxyIndex), response, i, used);
          r := response;
          fetches := fetches + used;
          return;
        }
        fetches := fetches + used;
        lastError := Some(response.message);
        if i < retries - 1 {
          waits := waits + [Backoff(intervalMs, backoff, i)];
        }
      }
      r := Err(if lastError.Some? then lastError.value else ALL_RETRIES_FAILED);
    }
  }
}
