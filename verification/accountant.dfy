/** The balance fixture (`Accountant`): a stateless oracle that reports fixed
    balances for whatever coins it is asked about. */
module AccountantFixture {
  import opened Results
  import opened Float64
  import Agnostic

  /** The fixture carries no state. */
  datatype Accountant = Accountant

  /** `ask`: never fails; reports the asked coin with 2 held and 2 in total. */
  function Ask<C>(self: Accountant, coin: C): (r: Result<Agnostic.Currency<C>>)
    ensures r.Ok?
    ensures r.value.coin == coin
    ensures r.value.held == r.value.amount
    ensures IsNormal(r.value.amount) && RealValue(r.value.amount) == 2.0
  {
    TwoDenotesTwo();
    Ok(Agnostic.Currency(coin, Two, Two))
  }

  /** `ask_both`: never fails; reports the first coin with 2 held and 2 in
      total, and the second with 4 held and 4 in total. */
  function AskBoth<C>(self: Accountant, first: C, second: C): (r: Result<(Agnostic.Currency<C>, Agnostic.Currency<C>)>)
    ensures r.Ok?
    ensures r.value.0.coin == first && r.value.1.coin == second
    ensures r.value.0.held == r.value.0.amount && r.value.1.held == r.value.1.amount
    ensures IsNormal(r.value.0.amount) && RealValue(r.value.0.amount) == 2.0
    ensures IsNormal(r.value.1.amount) && RealValue(r.value.1.amount) == 4.0
  {
    TwoDenotesTwo();
    FourDenotesFour();
    Ok((Agnostic.Currency(first, Two, Two), Agnostic.Currency(second, Four, Four)))
  }

  /** The first half of `ask_both` is what `ask` reports for that coin. */
  lemma AskBothFirstIsAsk<C>(self: Accountant, first: C, second: C)
    ensures AskBoth(self, first, second).value.0 == Ask(self, first).value
  {
  }

  /** The second half of `ask_both` is NOT what `ask` reports for that coin:
      the two queries disagree about the second coin's balance. */
  lemma AskBothSecondIsNotAsk<C>(self: Accountant, first: C, second: C)
    ensures AskBoth(self, first, second).value.1 != Ask(self, second).value
  {
    TwoIsNotFour();
  }

  /** `nearest_price`: the price comes back unchanged, whatever the trading
      pair. */
  function NearestPrice<P>(self: Accountant, pair: P, price: F64): (r: F64)
    ensures r == price
  {
    price
  }
}
