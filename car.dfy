/** The prices car.py attaches to a Car. */
module CarPricing {
  import PriceList

  /** Tire count a new Car gets when none is given. */
  const DefaultTires: int := 4

  /** Tire count Car.assemble_vehicle always fits, whatever the constructor was given. */
  const AssembledTires: int := 4

  function ChassisCost(): real {
    PriceList.CarChassis
  }

  function TireCost(): real {
    PriceList.CarTire
  }

  /** Engine material plus a fitting price per cubic centimetre. */
  function CalculateEngineCost(sizeCc: int): real {
    PriceList.CarEngineMaterial + PriceList.CarEngineFitCoef * sizeCc as real
  }

  /**
   * The car prices, and the engine cost characterised as an affine
   * function: 25000 for a zero-size engine, 59.50 more per extra cc.
   */
  lemma Prices()
    ensures ChassisCost() == 50000.0 && TireCost() == 3000.0
    ensures CalculateEngineCost(0) == 25000.0
    ensures forall s: int :: CalculateEngineCost(s + 1) == CalculateEngineCost(s) + 59.5
  {
  }
}
