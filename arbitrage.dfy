/** `calculateArbitrageOpportunities`: every pair of priced entries, with the
    cheaper side to buy and the dearer side to sell, ranked by percentage. */
module Arbitrage {
  import opened Js
  import opened ExchangeTypes
  import Sorting

  datatype Opportunity = Opportunity(
    buyExchange: string,
    sellExchange: string,
    priceDifference: real,
    percentageDifference: real)

  function Abs(x: real): real {
    if x < 0.0 then -x else x
  }

  /** Every non-null price is positive, as every producer of snapshots guarantees. */
  predicate PositivePrices(prices: seq<ExchangePrice>) {
    forall k :: 0 <= k < |prices| && prices[k].price.Some? ==> prices[k].price.value > 0.0
  }

  predicate BothPriced(prices: seq<ExchangePrice>, i: nat, j: nat)
    requires i < |prices| && j < |prices|
  {
    prices[i].price.Some? && prices[j].price.Some?
  }

  /** The opportunity built for entries `a` (earlier) and `b` (later). */
  function PairOpportunity(a: ExchangePrice, b: ExchangePrice): (o: Opportunity)
    requires a.price.Some? && a.price.value > 0.0
    requires b.price.Some? && b.price.value > 0.0
    ensures a.price.value < b.price.value ==>
      o.buyExchange == a.exchange && o.sellExchange == b.exchange
      && o.priceDifference == b.price.value - a.price.value
    ensures a.price.value >= b.price.value ==>
      o.buyExchange == b.exchange && o.sellExchange == a.exchange
      && o.priceDifference == a.price.value - b.price.value
    ensures o.percentageDifference * (a.price.value + b.price.value) == 200.0 * o.priceDifference
    ensures 0.0 <= o.percentageDifference < 200.0
  {
    var p1, p2 := a.price.value, b.price.value;
    var priceDifference := Abs(p1 - p2);
    var percentageDifference := (priceDifference / ((p1 + p2) / 2.0)) * 100.0;
    assert percentageDifference == 200.0 * (priceDifference / (p1 + p2));
    RatioBelowOne(priceDifference, p1 + p2);
    Opportunity(
      if p1 < p2 then a.exchange else b.exchange,
      if p1 < p2 then b.exchange else a.exchange,
      priceDifference,
      percentageDifference)
  }

  lemma RatioBelowOne(d: real, s: real)
    requires 0.0 <= d < s
    ensures 0.0 <= d / s < 1.0
  {
    var q := d / s;
    assert q * s == d;
  }

  /** `o` is the opportunity built for the pair `i < j` of priced entries. */
  predicate PairAt(prices: seq<ExchangePrice>, i: nat, j: nat, o: Opportunity)
    requires PositivePrices(prices)
  {
    i < j < |prices| && BothPriced(prices, i, j) && o == PairOpportunity(prices[i], prices[j])
  }

  /** Row `i` of the nested loop after inner iterations `i + 1 .. m - 1`. */
  function Row(prices: seq<ExchangePrice>, i: nat, m: nat): seq<Opportunity>
    requires PositivePrices(prices) && i < m <= |prices|
    decreases m
  {
    if m == i + 1 then []
    else
      Row(prices, i, m - 1)
      + (if BothPriced(prices, i, m - 1) then [PairOpportunity(prices[i], prices[m - 1])] else [])
  }

  /** `opportunities` after outer iterations `0 .. n - 1`, in push order. */
  function Computed(prices: seq<ExchangePrice>, n: nat): seq<Opportunity>
    requires PositivePrices(prices) && n <= |prices|
  {
    if n == 0 then [] else Computed(prices, n - 1) + Row(prices, n - 1, |prices|)
  }

  /** `b.percentageDifference - a.percentageDifference < 0`: `x` sorts before `y`. */
  predicate MoreProfitable(x: Opportunity, y: Opportunity) {
    x.percentageDifference > y.percentageDifference
  }

  /** The number of entries in `prices[lo..hi]` with a price. */
  function PricedCount(prices: seq<ExchangePrice>, lo: nat, hi: nat): nat
    requires lo <= hi <= |prices|
    decreases hi - lo
  {
    if lo == hi then 0 else (if prices[lo].price.Some? then 1 else 0) + PricedCount(prices, lo + 1, hi)
  }

  /** The number of unordered pairs of k things. */
  function Pairs(k: nat): nat {
    k * (k - 1) / 2
  }

  method CalculateArbitrageOpportunities(prices: seq<ExchangePrice>) returns (r: seq<Opportunity>)
    requires PositivePrices(prices)
    ensures multiset(r) == multiset(Computed(prices, |prices|))
    ensures forall p, q :: 0 <= p < q < |r| ==> r[p].percentageDifference >= r[q].percentageDifference
    ensures |r| == Pairs(PricedCount(prices, 0, |prices|))
  {
    var opportunities: seq<Opportunity> := [];
    for i := 0 to |prices|
      invariant opportunities == Computed(prices, i)
    {
      for j := i + 1 to |prices|
        invariant opportunities == Computed(prices, i) + Row(prices, i, j)
      {
        var price1 := prices[i].price;
        var price2 := prices[j].price;
        if price1.None? || price2.None? {
          continue;
        }
        var priceDifference := Abs(price1.value - price2.value);
        var averagePrice := (price1.value + price2.value) / 2.0;
        var percentageDifference := (priceDifference / averagePrice) * 100.0;
        opportunities := opportunities + [Opportunity(
          if price1.value < price2.value then prices[i].exchange else prices[j].exchange,
          if price1.value < price2.value then prices[j].exchange else prices[i].exchange,
          priceDifference,
          percentageDifference)];
      }
    }
    var a := new Opportunity[|opportunities|](k requires 0 <= k < |opportunities| => opportunities[k]);
    assert a[..] == opportunities;
    assert Sorting.StrictWeakOrder(MoreProfitable);
    Sorting.InsertionSort(a, MoreProfitable);
    r := a[..];
    assert |r| == |multiset(r)| == |opportunities|;
    OpportunityCount(prices);
  }

  /** There is one opportunity per pair of priced entries: k·(k−1)/2 of them. */
  lemma {:induction false} OpportunityCount(prices: seq<ExchangePrice>)
    requires PositivePrices(prices)
    ensures |Computed(prices, |prices|)| == Pairs(PricedCount(prices, 0, |prices|))
  {
    ComputedCount(prices, |prices|);
  }

  lemma {:induction false} ComputedCount(prices: seq<ExchangePrice>, m: nat)
    requires PositivePrices(prices) && m <= |prices|
    ensures |Computed(prices, m)| + Pairs(PricedCount(prices, m, |prices|)) == Pairs(PricedCount(prices, 0, |prices|))
    decreases m
  {
    var n := |prices|;
    if m > 0 {
      ComputedCount(prices, m - 1);
      RowCount(prices, m - 1, n);
      var q := PricedCount(prices, m, n);
      assert PricedCount(prices, m - 1, n) == (if prices[m - 1].price.Some? then q + 1 else q);
      PairsStep(q);
    }
  }

  lemma PairsStep(k: nat)
    ensures Pairs(k + 1) == Pairs(k) + k
  {
    assert (k + 1) * k == k * (k - 1) + 2 * k;
  }

  /** Row `i` holds one opportunity per priced entry after `i`, when `i` is priced. */
  lemma {:induction false} RowCount(prices: seq<ExchangePrice>, i: nat, m: nat)
    requires PositivePrices(prices) && i < m <= |prices|
    ensures |Row(prices, i, m)| == if prices[i].price.Some? then PricedCount(prices, i + 1, m) else 0
    decreases m
  {
    if m > i + 1 {
      RowCount(prices, i, m - 1);
      PricedCountSplit(prices, i + 1, m - 1);
    }
  }

  lemma {:induction false} PricedCountSplit(prices: seq<ExchangePrice>, lo: nat, hi: nat)
    requires lo <= hi < |prices|
    ensures PricedCount(prices, lo, hi + 1) == PricedCount(prices, lo, hi) + (if prices[hi].price.Some? then 1 else 0)
    decreases hi - lo
  {
    if lo < hi {
      PricedCountSplit(prices, lo + 1, hi);
    }
  }

  /** An opportunity is in the result exactly when it is built from a pair
      i < j of priced entries: an entry without a price is in no pair. */
  lemma {:induction false} ComputedMembers(prices: seq<ExchangePrice>, n: nat, o: Opportunity)
    requires PositivePrices(prices) && n <= |prices|
    ensures o in Computed(prices, n) <==> exists i, j :: 0 <= i < n && i < j && PairAt(prices, i, j, o)
    decreases n
  {
    if n > 0 {
      var last := Row(prices, n - 1, |prices|);
      ComputedMembers(prices, n - 1, o);
      RowMembers(prices, n - 1, |prices|, o);
      assert o in Computed(prices, n) <==> o in Computed(prices, n - 1) || o in last;
      if o in last {
        var j :| n - 1 < j < |prices| && PairAt(prices, n - 1, j, o);
        assert 0 <= n - 1 < n && n - 1 < j && PairAt(prices, n - 1, j, o);
      }
      if exists i, j :: 0 <= i < n && i < j && PairAt(prices, i, j, o) {
        var i, j :| 0 <= i < n && i < j && PairAt(prices, i, j, o);
        if i == n - 1 {
          assert n - 1 < j < |prices| && PairAt(prices, n - 1, j, o);
        }
      }
    }
  }

  lemma {:induction false} RowMembers(prices: seq<ExchangePrice>, i: nat, m: nat, o: Opportunity)
    requires PositivePrices(prices) && i < m <= |prices|
    ensures o in Row(prices, i, m) <==> exists j :: i < j < m && PairAt(prices, i, j, o)
    decreases m
  {
    if m > i + 1 {
      var k := m - 1;
      RowMembers(prices, i, k, o);
      assert PairAt(prices, i, k, o) <==> BothPriced(prices, i, k) && o == PairOpportunity(prices[i], prices[k]);
      assert o in Row(prices, i, m) <==> o in Row(prices, i, k) || PairAt(prices, i, k, o);
      if exists j :: i < j < m && PairAt(prices, i, j, o) {
        var j :| i < j < m && PairAt(prices, i, j, o);
        if j < k {
          assert i < j < k && PairAt(prices, i, j, o);
        }
      }
    }
  }

  /** Quotes A = 100, B = 102 and C without a price give the one opportunity
      buy A, sell B, difference 2, percentage 200/101 (about 1.98). */
  lemma ThreeQuoteExample()
    ensures
      var prices := [
        ExchangePrice("A", Some(100.0), None, 0),
        ExchangePrice("B", Some(102.0), None, 0),
        ExchangePrice("C", None, Some("down"), 0)];
      PositivePrices(prices)
      && Computed(prices, 3) == [Opportunity("A", "B", 2.0, 200.0 / 101.0)]
  {
    var prices := [
      ExchangePrice("A", Some(100.0), None, 0),
      ExchangePrice("B", Some(102.0), None, 0),
      ExchangePrice("C", None, Some("down"), 0)];
    assert Row(prices, 0, 3) == [PairOpportunity(prices[0], prices[1])];
    assert Row(prices, 1, 3) == [];
    assert Row(prices, 2, 3) == [];
  }
}
