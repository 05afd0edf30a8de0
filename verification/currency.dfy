/**
 * The worker's currency normaliser: every amount is converted to Indian rupees with
 * a fixed rate table before it is added to any aggregate.
 */
module Currency {

  import opened Base

  /** `EXCHANGE_RATES`: rupees per unit of each listed currency. */
  const ExchangeRates: map<string, real> :=
    map["INR" := 1.0, "USD" := 83.0, "EUR" := 90.0, "GBP" := 105.0,
        "JPY" := 0.55, "AUD" := 55.0, "CAD" := 61.0]

  /**
   * `toINR`: an absent or empty currency code, or one the table does not list (or
   * lists with a falsy rate), leaves the amount as it is; otherwise the amount is
   * multiplied by the rate.
   */
  function ToINR(amount: real, currency: Option<string>): (r: real)
    ensures !Truthy(currency) || currency.value !in ExchangeRates ==> r == amount
    ensures Truthy(currency) && currency.value in ExchangeRates ==>
      r == amount * ExchangeRates[currency.value]
    ensures amount > 0.0 ==> r > 0.0
    ensures amount == 0.0 ==> r == 0.0
  {
    if !Truthy(currency) || currency.value !in ExchangeRates || ExchangeRates[currency.value] == 0.0
    then amount
    else amount * ExchangeRates[currency.value]
  }

  /** Rupees convert to themselves, and every listed rate is positive. */
  lemma RatesArePositive()
    ensures ExchangeRates["INR"] == 1.0
    ensures forall c :: c in ExchangeRates ==> ExchangeRates[c] > 0.0
  {
  }
}
