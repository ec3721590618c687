/** The prices bicycle.py attaches to a Bicycle; a bicycle has no engine. */
module BicyclePricing {
  import PriceList

  /** Tire count a new Bicycle gets when none is given. */
  const DefaultTires: int := 2

  function ChassisCost(): real {
    PriceList.BicycleChassis
  }

  function TireCost(): real {
    PriceList.BicycleTire
  }

  lemma Prices()
    ensures ChassisCost() == 2000.0 && TireCost() == 800.0
  {
  }
}
