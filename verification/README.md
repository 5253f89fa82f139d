# agnostic_test market fixtures, in Dafny

This project models the two fixtures in `agnostic_test` that contain behaviour. Both are
deterministic stand-ins for a live exchange, and trading-strategy code is exercised against them:

- **Sniffer** (`src/sniffer.rs`): the order-book fixture. It holds a fixed list of
  `(price, amount)` orders and answers three queries:
  - `all_the_best_orders` returns the whole list, tagged with the queried trading pair.
  - `the_best_order` returns the first order, or the error `"0 orders on the market"`.
  - `get_my_orders` returns the list with each order's index, in decimal, as its id.
- **Accountant** (`src/accountant.rs`): the balance fixture.
  - `ask` reports a balance of 2.
  - `ask_both` reports 2 for the first coin and 4 for the second.
  - `nearest_price` returns the price unchanged.

Each query that Rust wraps in a `Future<Result<…, String>>` is a pure function that returns a
`Result` with a `string` error; the `Future` wrapper is dropped. `nearest_price` returns a bare
`f64` and `Default` a bare `Sniffer`, and their models do the same. Trading pairs and coins
come from the `agnostic` crate. The fixtures only copy them, so they are opaque type parameters.
An `f64` is kept as its IEEE 754 binary64 bit pattern (`Float64.F64`), because the modelled
operations only copy these values. A ghost decoder for normal numbers shows that the literals
`2f64` and `4f64` denote 2 and 4. Queries take the sniffer by value and return no new sniffer, so
no query can change the stored list. This matches the `&self` receivers and the clones in the
source.

Modules:
- `Results`: `Result`, `Option`, and `slice::get`.
- `Float64`: `f64` bit patterns.
- `Decimal`: `usize::to_string` and its inverse.
- `Agnostic`: the crate's `Order`, `OrderWithId` and `Currency`.
- `SnifferFixture` and `AccountantFixture`: the two fixtures.

Facts about the code that shape the model:
- One stored list answers every trading pair, side and target.
- `all_the_best_orders` ignores `_count` (src/sniffer.rs:36).
- The empty-book failure is the message string at src/sniffer.rs:60.
- `ask_both` reports 4 for its second coin where `ask` reports 2
  (`AccountantFixture.AskBothSecondIsNotAsk`).
- `get_my_orders` enumerates the stored list.

## Model

| member | source | states |
|---|---|---|
| `Results.Get` | src/sniffer.rs:52 | `orders.get(0)`: there is an element exactly when the index is in range, and then it is the stored element |
| `Float64.TwoDenotesTwo` | src/accountant.rs:12-13 | the bit pattern used for `2f64` is a normal double whose value is exactly 2 |
| `Float64.FourDenotesFour` | src/sniffer.rs:16-17 | the bit pattern used for `4f64` is a normal double whose value is exactly 4 |
| `Decimal.NatToString` | src/sniffer.rs:75 | `index.to_string()` is non-empty, all ASCII digits, has no leading zero, and starts with '0' only for index 0 |
| `Decimal.DigitsValueOfNatToString` | src/sniffer.rs:75 | reading the decimal rendering of `n` back gives `n` |
| `Decimal.NatToStringOfDigitsValue` | src/sniffer.rs:75 | every canonical digit string is the rendering of the number it denotes, so rendering is onto the canonical strings |
| `Decimal.NatToStringInjective` | src/sniffer.rs:73-75 | two indices render to the same id if and only if they are equal |
| `SnifferFixture.Default` | src/sniffer.rs:11-29 | the default sniffer holds exactly three orders, each with price 4 and amount 4 |
| `SnifferFixture.TagAll` | src/sniffer.rs:40-46 | mapping the stored orders keeps the length, and element i carries the queried pair and the price and amount of stored order i |
| `SnifferFixture.AllTheBestOrders` | src/sniffer.rs:33-49 | never fails and returns exactly as many orders as are stored, whatever the count; element i is stored order i tagged with the queried pair |
| `SnifferFixture.UntagAllTagAll` | src/sniffer.rs:40-46 | removing the pair from every tagged order gives the stored list back |
| `SnifferFixture.AllTheBestOrdersPreservesBook` | src/sniffer.rs:38-46 | the reported orders, without their pair, are the stored list in its order |
| `SnifferFixture.AllTheBestOrdersIndependentOfQuery` | src/sniffer.rs:33-47 | the answer is the same for every count, and apart from the pair tag it is the same for every pair |
| `SnifferFixture.TheBestOrder` | src/sniffer.rs:51-63 | fails if and only if nothing is stored, with the message "0 orders on the market"; otherwise it returns the first stored order tagged with the pair |
| `SnifferFixture.TheBestOrderIsFirstOfAll` | src/sniffer.rs:52-59 | on a non-empty list the best order is the first element of `all_the_best_orders`, for any count |
| `SnifferFixture.Enumerate` | src/sniffer.rs:71-81 | enumerating from `start` keeps the length, and element i has id `start + i` in decimal, the queried pair, and stored order i's price and amount |
| `SnifferFixture.GetMyOrders` | src/sniffer.rs:65-83 | never fails; returns one order per stored order, and element i has id `i` in decimal, the queried pair, and stored order i's price and amount |
| `SnifferFixture.GetMyOrdersIdsDistinct` | src/sniffer.rs:73-75 | the ids of the returned orders are pairwise distinct |
| `SnifferFixture.GetMyOrdersIdIsIndex` | src/sniffer.rs:73-75 | every id is a digit string that reads back as its order's position |
| `SnifferFixture.GetMyOrdersAgreesWithAllTheBestOrders` | src/sniffer.rs:65-81 | without their ids, the caller's orders equal `all_the_best_orders` for the same pair, position by position |
| `AccountantFixture.Ask` | src/accountant.rs:5-16 | never fails; the currency carries the asked coin, and held and amount are both exactly 2 |
| `AccountantFixture.AskBoth` | src/accountant.rs:18-37 | never fails; the first currency is the first coin with held = amount = 2, and the second is the second coin with held = amount = 4 |
| `AccountantFixture.AskBothFirstIsAsk` | src/accountant.rs:24-29 | the first half of `ask_both` equals `ask` for that coin |
| `AccountantFixture.AskBothSecondIsNotAsk` | src/accountant.rs:30-34 | the second half of `ask_both` differs from `ask` for that coin |
| `AccountantFixture.NearestPrice` | src/accountant.rs:47-49 | the price is returned unchanged, whatever the trading pair |

## Left out

- `Trader` (`src/trader.rs`): every method is a constant stub that returns `Ok(())` or `Ok("Test")`. There is no logic to state.
- `Merchant` (`src/merchant.rs`): it only wires the three fixtures together behind `Arc` handles. Its `Sniffer {}` initialiser also omits the `orders` field that `src/sniffer.rs` declares.
- `Accountant::calculate_volume`: it is an `f64` multiplication, and IEEE rounding is outside this model.
- The `Future`/`Box::pin` shape: every operation completes with its value directly, and no concurrency is modelled. The fixtures have no shared mutable state.
- The `agnostic` crate's `TradingPair` and `Coin` are opaque type parameters. Nothing in the fixtures inspects them.
- `Float64.RealValue` decodes only normal numbers. Zeros, subnormals, infinities and NaNs are never decoded, because the modelled operations only copy values.
- `Clone` on `Order` is implicit, because Dafny values are immutable and are copied freely. `Debug` formatting is not modelled.
