/** What one `fetch` call can do, and the abort timer that bounds it. */
module Http {
  import opened Js

  /** What `response.json()` yields: a value, or the SyntaxError it throws. */
  datatype Body = Parsed(json: Json) | Malformed(message: string)

  datatype Response = Response(status: nat, statusText: string, body: Body)

  /** `response.ok` */
  predicate IsOk(r: Response) {
    200 <= r.status <= 299
  }

  /** One `fetch`: it settles after `latencyMs`, with a response or a rejection. */
  datatype FetchOutcome =
    | Answered(latencyMs: nat, response: Response)
    | Rejected(latencyMs: nat, message: string)

  /** The answer to the k-th `fetch` made: the network, as an oracle. */
  type Network = nat -> FetchOutcome

  /** The message of the AbortError a fetch rejects with once its signal is aborted. */
  const ABORT_MESSAGE := "This operation was aborted"

  /** `fetch` under an AbortController whose timer fires after `budgetMs`:
      an outcome that takes that long or longer is aborted. */
  function Fetch(o: FetchOutcome, budgetMs: nat): (r: Result<Response>)
    ensures r.Ok? <==> o.Answered? && o.latencyMs < budgetMs
    ensures r.Ok? ==> r.value == o.response
    ensures o.latencyMs >= budgetMs ==> r == Err(ABORT_MESSAGE)
  {
    if o.latencyMs >= budgetMs then Err(ABORT_MESSAGE)
    else match o
      case Answered(_, resp) => Ok(resp)
      case Rejected(_, m) => Err(m)
  }

  /** How long the caller waits for `Fetch(o, budgetMs)` to settle: the
      smaller of the fetch's latency and the timer's budget. */
  function Elapsed(o: FetchOutcome, budgetMs: nat): (t: nat)
    ensures t <= budgetMs && t <= o.latencyMs
    ensures t == budgetMs || t == o.latencyMs
  {
    if o.latencyMs < budgetMs then o.latencyMs else budgetMs
  }

  /** The error `fetchWithRetry` and `fetchWithProxy` throw for a non-ok status. */
  function HttpError(r: Response): string {
    "HTTP " + NatToString(r.status) + ": " + r.statusText
  }

  /** A fetch followed by the `!response.ok` check that throws `HttpError`. */
  function CheckedFetch(o: FetchOutcome, budgetMs: nat): (r: Result<Response>)
    ensures r.Ok? <==> o.Answered? && o.latencyMs < budgetMs && IsOk(o.response)
    ensures r.Ok? ==> r.value == o.response
    ensures o.Answered? && o.latencyMs < budgetMs && !IsOk(o.response) ==> r == Err(HttpError(o.response))
    ensures o.latencyMs >= budgetMs ==> r == Err(ABORT_MESSAGE)
  {
    match Fetch(o, budgetMs)
    case Err(m) => Err(m)
    case Ok(response) => if IsOk(response) then Ok(response) else Err(HttpError(response))
  }

  /** `await response.json()`: the parsed body, or the SyntaxError it throws. */
  function BodyJson(r: Response): (j: Result<Json>)
    ensures j.Ok? <==> r.body.Parsed?
    ensures j.Ok? ==> j.value == r.body.json
    ensures j.Err? ==> j.message == r.body.message
  {
    match r.body
    case Parsed(json) => Ok(json)
    case Malformed(m) => Err(m)
  }
}
