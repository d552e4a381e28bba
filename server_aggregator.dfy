/** The server's `ExchangeService.fetchAllPrices`: one snapshot entry per
    connector, in the order the connectors are declared, all stamped with the
    time taken before any of them is asked. How each connector's `fetchPrice`
    settled is the parameter `settle`. */
module ServerAggregator {
  import opened Js
  import opened ExchangeTypes
  import Arbitrage

  /** The keys of `exchanges`, in declaration order. */
  const EXCHANGES: seq<string> := ["binance", "coinbase", "kraken"]
  const UNKNOWN_ERROR := "Unknown error"

  /** How an awaited `fetchPrice` settled: a price, or a thrown value with
      its message when it is an `Error` (None otherwise). */
  datatype Settled = Fulfilled(price: real) | Thrown(message: Option<string>)

  /** The entry built for one connector. */
  function Entry(exchange: string, s: Settled, now: nat): (e: ExchangePrice)
    ensures e.exchange == exchange && e.timestamp == now
    ensures e.price.Some? <==> s.Fulfilled?
    ensures s.Fulfilled? ==> e.price == Some(s.price) && e.error == None
    ensures s.Thrown? && s.message.Some? ==> e.error == s.message
    ensures s.Thrown? && s.message.None? ==> e.error == Some(UNKNOWN_ERROR)
  {
    match s
    case Fulfilled(price) => ExchangePrice(exchange, Some(price), None, now)
    case Thrown(m) => ExchangePrice(exchange, None, Some(m.GetOr(UNKNOWN_ERROR)), now)
  }

  /** `fetchAllPrices`: it never fails; a connector that throws gives an
      entry without a price. */
  function FetchAllPrices(now: nat, settle: string -> Settled): (r: seq<ExchangePrice>)
    ensures |r| == |EXCHANGES|
    ensures forall k :: 0 <= k < |r| ==> r[k].exchange == EXCHANGES[k] && r[k].timestamp == now
    ensures forall k :: 0 <= k < |r| ==> (r[k].price.Some? <==> settle(EXCHANGES[k]).Fulfilled?)
    ensures forall k :: 0 <= k < |r| && r[k].price.Some? ==> r[k].price.value == settle(EXCHANGES[k]).price
    ensures forall k :: 0 <= k < |r| && r[k].error.Some? ==> settle(EXCHANGES[k]).Thrown?
  {
    seq(|EXCHANGES|, k requires 0 <= k < |EXCHANGES| => Entry(EXCHANGES[k], settle(EXCHANGES[k]), now))
  }

  /** The connectors resolve `fetchPrice` only with a positive price, so every
      entry has exactly one of a price and an error, and the snapshot is a
      valid input to `calculateArbitrageOpportunities`. */
  lemma SnapshotIsWellFormed(now: nat, settle: string -> Settled)
    requires forall e :: settle(e).Fulfilled? ==> settle(e).price > 0.0
    ensures forall k :: 0 <= k < |FetchAllPrices(now, settle)| ==> WellFormed(FetchAllPrices(now, settle)[k])
    ensures Arbitrage.PositivePrices(FetchAllPrices(now, settle))
  {
    var r := FetchAllPrices(now, settle);
    forall k | 0 <= k < |r|
      ensures WellFormed(r[k])
    {
      assert r[k] == Entry(EXCHANGES[k], settle(EXCHANGES[k]), now);
    }
  }
}
