/** The prices motorcycle.py attaches to a Motorcycle. */
module MotorcyclePricing {
  import PriceList

  /** Tire count a new Motorcycle gets when none is given. */
  const DefaultTires: int := 2

  function ChassisCost(): real {
    PriceList.MotorcycleChassis
  }

  function TireCost(): real {
    PriceList.MotorcycleTire
  }

  /** Engine material plus a fitting price per cubic centimetre. */
  function CalculateEngineCost(sizeCc: int): real {
    PriceList.MotorcycleEngineMaterial + PriceList.MotorcycleEngineFitCoef * sizeCc as real
  }

  /**
   * The motorcycle prices, and the engine cost characterised as an affine
   * function: 15000 for a zero-size engine, 44.50 more per extra cc.
   */
  lemma Prices()
    ensures ChassisCost() == 20000.0 && TireCost() == 2000.0
    ensures CalculateEngineCost(0) == 15000.0
    ensures forall s: int :: CalculateEngineCost(s + 1) == CalculateEngineCost(s) + 44.5
  {
  }
}
