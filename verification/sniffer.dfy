/** The order-book fixture (`Sniffer`): a fixed list of price/amount pairs
    that it reports as the market's best orders and as the caller's own
    orders, for whatever trading pair is asked about. Every query reads the
    list and returns a fresh result; none changes the sniffer, which the
    model reflects by taking it as an immutable value. */
module SnifferFixture {
  import opened Results
  import opened Float64
  import opened Decimal
  import Agnostic

  /** Rust's `u32`. */
  newtype U32 = x: int | 0 <= x < 0x1_0000_0000

  /** A stored order, not yet tied to any trading pair. */
  datatype Order = Order(price: F64, amount: F64)

  datatype Sniffer = Sniffer(orders: seq<Order>)

  /** The one failure message: `the_best_order` on an empty list. */
  const NoOrdersError: string := "0 orders on the market"

  /** `Sniffer::default()`: three orders of price 4 and amount 4. */
  function Default(): (s: Sniffer)
    ensures |s.orders| == 3
    ensures forall i :: 0 <= i < |s.orders| ==> s.orders[i].price == Four && s.orders[i].amount == Four
  {
    Sniffer([Order(Four, Four), Order(Four, Four), Order(Four, Four)])
  }

  /** The market order a stored order becomes when reported for `pair`. */
  function Tag<P>(o: Order, pair: P): Agnostic.Order<P> {
    Agnostic.Order(pair, o.price, o.amount)
  }

  /** The stored order a reported one came from: forgets the pair. */
  function Untag<P>(o: Agnostic.Order<P>): Order {
    Order(o.price, o.amount)
  }

  function UntagAll<P>(os: seq<Agnostic.Order<P>>): seq<Order> {
    if |os| == 0 then [] else [Untag(os[0])] + UntagAll(os[1..])
  }

  /** The `map(...).collect()` of `all_the_best_orders`: each stored order,
      in order, tagged with `pair`. */
  function TagAll<P>(orders: seq<Order>, pair: P): (r: seq<Agnostic.Order<P>>)
    ensures |r| == |orders|
    ensures forall i :: 0 <= i < |r| ==> r[i].tradingPair == pair && Untag(r[i]) == orders[i]
  {
    if |orders| == 0 then [] else [Tag(orders[0], pair)] + TagAll(orders[1..], pair)
  }

  /** `all_the_best_orders`: never fails, reports the whole stored list for
      `pair`, and disregards `count`. */
  function AllTheBestOrders<P>(s: Sniffer, pair: P, count: U32): (r: Result<seq<Agnostic.Order<P>>>)
    ensures r.Ok?
    ensures |r.value| == |s.orders|
    ensures forall i :: 0 <= i < |s.orders| ==>
              && r.value[i].tradingPair == pair
              && r.value[i].price == s.orders[i].price
              && r.value[i].amount == s.orders[i].amount
  {
    Ok(TagAll(s.orders, pair))
  }

  /** Forgetting the pair of every reported order gives the stored list back. */
  lemma {:induction false} UntagAllTagAll<P>(orders: seq<Order>, pair: P)
    ensures UntagAll(TagAll(orders, pair)) == orders
    decreases |orders|
  {
    if |orders| > 0 {
      UntagAllTagAll(orders[1..], pair);
      assert orders == [orders[0]] + orders[1..];
    }
  }

  /** The stored list is preserved by `all_the_best_orders`, whatever the
      pair and the count. */
  lemma AllTheBestOrdersPreservesBook<P>(s: Sniffer, pair: P, count: U32)
    ensures UntagAll(AllTheBestOrders(s, pair, count).value) == s.orders
  {
    UntagAllTagAll(s.orders, pair);
  }

  /** Apart from the pair it is tagged with, the answer does not depend on the
      pair; and it does not depend on the count at all. */
  lemma AllTheBestOrdersIndependentOfQuery<P>(s: Sniffer, pair1: P, pair2: P, count1: U32, count2: U32)
    ensures UntagAll(AllTheBestOrders(s, pair1, count1).value)
         == UntagAll(AllTheBestOrders(s, pair2, count2).value)
    ensures AllTheBestOrders(s, pair1, count1) == AllTheBestOrders(s, pair1, count2)
  {
    UntagAllTagAll(s.orders, pair1);
    UntagAllTagAll(s.orders, pair2);
  }

  /** `the_best_order`: the first stored order tagged with `pair`, or the
      "0 orders on the market" error when nothing is stored. */
  function TheBestOrder<P>(s: Sniffer, pair: P): (r: Result<Agnostic.Order<P>>)
    ensures r.Err? <==> |s.orders| == 0
    ensures r.Err? ==> r.error == NoOrdersError
    ensures r.Ok? ==> r.value.tradingPair == pair && Untag(r.value) == s.orders[0]
  {
    match Get(s.orders, 0)
    case Some(order) => Ok(Tag(order, pair))
    case None => Err(NoOrdersError)
  }

  /** The best order is the head of `all_the_best_orders`, for any count. */
  lemma TheBestOrderIsFirstOfAll<P>(s: Sniffer, pair: P, count: U32)
    requires |s.orders| > 0
    ensures TheBestOrder(s, pair) == Ok(AllTheBestOrders(s, pair, count).value[0])
  {
  }

  /** The `enumerate().map(...).collect()` of `get_my_orders`, with indices
      counted from `start`. */
  function Enumerate<P>(orders: seq<Order>, start: nat, pair: P): (r: seq<Agnostic.OrderWithId<P>>)
    ensures |r| == |orders|
    ensures forall i :: 0 <= i < |r| ==>
              && r[i].id == NatToString(start + i)
              && r[i].tradingPair == pair
              && r[i].price == orders[i].price
              && r[i].amount == orders[i].amount
    decreases |orders|
  {
    if |orders| == 0 then []
    else [Agnostic.OrderWithId(NatToString(start), pair, orders[0].price, orders[0].amount)]
         + Enumerate(orders[1..], start + 1, pair)
  }

  /** `get_my_orders`: never fails; the stored orders tagged with `pair`,
      each carrying its position in the list, in decimal, as its id. */
  function GetMyOrders<P>(s: Sniffer, pair: P): (r: Result<seq<Agnostic.OrderWithId<P>>>)
    ensures r.Ok?
    ensures |r.value| == |s.orders|
    ensures forall i :: 0 <= i < |s.orders| ==>
              && r.value[i].id == NatToString(i)
              && r.value[i].tradingPair == pair
              && r.value[i].price == s.orders[i].price
              && r.value[i].amount == s.orders[i].amount
  {
    Ok(Enumerate(s.orders, 0, pair))
  }

  /** No two of the caller's orders share an id. */
  lemma GetMyOrdersIdsDistinct<P>(s: Sniffer, pair: P)
    ensures var r := GetMyOrders(s, pair).value;
            forall i, j :: 0 <= i < |r| && 0 <= j < |r| && i != j ==> r[i].id != r[j].id
  {
    var r := GetMyOrders(s, pair).value;
    forall i, j | 0 <= i < |r| && 0 <= j < |r| && i != j
      ensures r[i].id != r[j].id
    {
      NatToStringInjective(i, j);
    }
  }

  /** Each id reads back as the position of its order. */
  lemma GetMyOrdersIdIsIndex<P>(s: Sniffer, pair: P)
    ensures var r := GetMyOrders(s, pair).value;
            forall i :: 0 <= i < |r| ==> AllDigits(r[i].id) && DigitsValue(r[i].id) == i
  {
    var r := GetMyOrders(s, pair).value;
    forall i | 0 <= i < |r|
      ensures AllDigits(r[i].id) && DigitsValue(r[i].id) == i
    {
      DigitsValueOfNatToString(i);
    }
  }

  /** Without their ids, the caller's orders are exactly what
      `all_the_best_orders` reports, position by position. */
  lemma GetMyOrdersAgreesWithAllTheBestOrders<P>(s: Sniffer, pair: P, count: U32)
    ensures var mine := GetMyOrders(s, pair).value;
            var best := AllTheBestOrders(s, pair, count).value;
            |mine| == |best|
            && forall i :: 0 <= i < |mine| ==>
                 best[i] == Agnostic.Order(mine[i].tradingPair, mine[i].price, mine[i].amount)
  {
  }
}
