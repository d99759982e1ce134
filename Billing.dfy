/** Prices and periods: one month of subscription costs `CostPerMonth`
    roubles, and a reminder "month" is four weeks. */
module Billing {

  /** `COST_PER_MONTH` in bot.py. */
  const CostPerMonth: nat := 50

  /** The reminder interval of one month, in weeks. */
  const WeeksPerMonth: nat := 4

  /** The number of whole months an amount pays for (`amount // COST_PER_MONTH`):
      the largest `p` whose price does not exceed the amount. */
  function Period(amount: nat): (p: nat)
    ensures p * CostPerMonth <= amount < (p + 1) * CostPerMonth
  {
    amount / CostPerMonth
  }

  /** An amount covers at least one month exactly when it reaches the price
      of one month. */
  lemma PeriodPositive(amount: nat)
    ensures Period(amount) >= 1 <==> amount >= CostPerMonth
  {
  }
}
