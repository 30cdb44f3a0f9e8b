/** calculateCost: energy in kilowatt-hours times the price per kilowatt-hour. */
module Cost {

  /**
   * The cost of `energyKwh` at `pricePerKwh`. Nothing is validated or
   * clamped: a negative energy or price gives a negative cost, zero gives zero.
   */
  function CalculateCost(energyKwh: real, pricePerKwh: real): (cost: real)
    ensures energyKwh == 0.0 || pricePerKwh == 0.0 ==> cost == 0.0
    ensures cost < 0.0 <==> (energyKwh < 0.0 && pricePerKwh > 0.0) || (energyKwh > 0.0 && pricePerKwh < 0.0)
    ensures pricePerKwh != 0.0 ==> cost / pricePerKwh == energyKwh
  {
    energyKwh * pricePerKwh
  }

  /** Costing two readings separately and adding them equals costing their total. */
  lemma CostAdditive(e1: real, e2: real, pricePerKwh: real)
    ensures CalculateCost(e1 + e2, pricePerKwh) == CalculateCost(e1, pricePerKwh) + CalculateCost(e2, pricePerKwh)
  {
  }

  /** A credit (negative reading) costs exactly the negation of the matching charge. */
  lemma CostOfCredit(energyKwh: real, pricePerKwh: real)
    ensures CalculateCost(-energyKwh, pricePerKwh) == -CalculateCost(energyKwh, pricePerKwh)
  {
  }
}
