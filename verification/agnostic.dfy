/** The value types the fixtures exchange with their callers, which belong to
    the `agnostic` crate. Trading pairs and coins are opaque to the fixtures:
    they are only copied into results, so they appear here as the type
    parameters `P` and `C`. */
module Agnostic {
  import opened Float64

  /** `agnostic::order::Order`: an order on one trading pair. */
  datatype Order<P> = Order(tradingPair: P, price: F64, amount: F64)

  /** `agnostic::order::OrderWithId`: an order the caller owns, with its id. */
  datatype OrderWithId<P> = OrderWithId(id: string, tradingPair: P, price: F64, amount: F64)

  /** `agnostic::currency::Currency`: a balance snapshot for one coin. */
  datatype Currency<C> = Currency(coin: C, held: F64, amount: F64)
}
