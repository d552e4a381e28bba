/** The price record shared by the aggregators and the arbitrage calculator. */
module ExchangeTypes {
  import opened Js

  /** `ExchangePrice`: an exchange's price, or null with an error message,
      stamped with the time (in milliseconds) the snapshot was taken. */
  datatype ExchangePrice = ExchangePrice(
    exchange: string,
    price: Option<real>,
    error: Option<string>,
    timestamp: nat)

  /** The record the browser-side services build: a price that may be NaN,
      stamped `lastUpdated`. */
  datatype PolledPrice = PolledPrice(exchange: string, price: Float, lastUpdated: nat)

  /** Exactly one of `price` and `error` is set, and a price is positive. */
  predicate WellFormed(q: ExchangePrice) {
    (q.price.Some? <==> q.error.None?) && (q.price.Some? ==> q.price.value > 0.0)
  }

  /** The order in which the per-exchange requests settle: `order` lists
      `0 .. n - 1`, each once. */
  predicate IsOrderOf(order: seq<nat>, n: nat) {
    && |order| == n
    && (forall j :: 0 <= j < n ==> order[j] < n)
    && (forall i, j :: 0 <= i < j < n ==> order[i] != order[j])
  }
}
