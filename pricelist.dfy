/**
 * Unit prices of vehicle parts, in SEK, as pricelist.py binds them.
 * The engine fitting coefficients are prices per cubic centimetre.
 */
module PriceList {

  // Car parts
  const CarChassis: real := 50000.0
  const CarTire: real := 3000.0
  const CarEngineMaterial: real := 25000.0
  const CarEngineFitCoef: real := 59.5

  // Motorcycle parts
  const MotorcycleChassis: real := 20000.0
  const MotorcycleTire: real := 2000.0
  const MotorcycleEngineMaterial: real := 15000.0
  const MotorcycleEngineFitCoef: real := 44.5

  // Bicycle parts (a bicycle has no engine)
  const BicycleChassis: real := 2000.0
  const BicycleTire: real := 800.0

  /** k halves of a krona. */
  function Halves(k: int): real {
    k as real / 2.0
  }

  /**
   * x is a whole number of half kronor, so for values of ordinary magnitude
   * it is exact in binary floating point too.
   */
  ghost predicate HalfUnits(x: real) {
    exists k: int :: x == Halves(k)
  }

  /** Every price in the list is non-negative and a whole number of half kronor. */
  lemma PricesAreExact()
    ensures CarChassis >= 0.0 && CarTire >= 0.0 && CarEngineMaterial >= 0.0 && CarEngineFitCoef >= 0.0
    ensures MotorcycleChassis >= 0.0 && MotorcycleTire >= 0.0
    ensures MotorcycleEngineMaterial >= 0.0 && MotorcycleEngineFitCoef >= 0.0
    ensures BicycleChassis >= 0.0 && BicycleTire >= 0.0
    ensures HalfUnits(CarChassis) && HalfUnits(CarTire)
    ensures HalfUnits(CarEngineMaterial) && HalfUnits(CarEngineFitCoef)
    ensures HalfUnits(MotorcycleChassis) && HalfUnits(MotorcycleTire)
    ensures HalfUnits(MotorcycleEngineMaterial) && HalfUnits(MotorcycleEngineFitCoef)
    ensures HalfUnits(BicycleChassis) && HalfUnits(BicycleTire)
  {
    assert CarChassis == Halves(100000);
    assert CarTire == Halves(6000);
    assert CarEngineMaterial == Halves(50000);
    assert CarEngineFitCoef == Halves(119);
    assert MotorcycleChassis == Halves(40000);
    assert MotorcycleTire == Halves(4000);
    assert MotorcycleEngineMaterial == Halves(30000);
    assert MotorcycleEngineFitCoef == Halves(89);
    assert BicycleChassis == Halves(4000);
    assert BicycleTire == Halves(1600);
  }

  /** Whole numbers of half kronor stay exact under addition. */
  lemma HalfUnitsAdd(x: real, y: real)
    requires HalfUnits(x) && HalfUnits(y)
    ensures HalfUnits(x + y)
  {
    var a :| x == Halves(a);
    var b :| y == Halves(b);
    assert x + y == Halves(a + b);
  }

  /** ... and under multiplication by a whole count (tires, cubic centimetres). */
  lemma HalfUnitsScale(x: real, n: int)
    requires HalfUnits(x)
    ensures HalfUnits(n as real * x)
  {
    var a :| x == Halves(a);
    assert (n * a) as real == n as real * a as real;
    assert n as real * x == Halves(n * a);
  }
}
