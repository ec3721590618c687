/**
 * The vehicle cost-assembly model: vehicle.py's Vehicle, the engine-powered
 * layer of engine_powered_vehicle.py and the three concrete classes of
 * car.py, motorcycle.py and bicycle.py.
 *
 * The class hierarchy becomes one class tagged with its concrete kind; the
 * methods the source overrides dispatch on that kind. Members that exist
 * only on the engine-powered classes require HasEngine(kind), and each
 * concrete assemble_vehicle requires its own kind.
 */
module Vehicles {
  import opened Wrappers
  import opened OrderRecord
  import PriceList
  import CarPricing
  import MotorcyclePricing
  import BicyclePricing

  /** The concrete vehicle classes. */
  datatype VehicleKind = Car | Motorcycle | Bicycle

  /** get_name: the name of the concrete class. */
  function Name(kind: VehicleKind): string {
    match kind
    case Car => "Car"
    case Motorcycle => "Motorcycle"
    case Bicycle => "Bicycle"
  }

  /** Car and Motorcycle derive from EnginePoweredVehicle; Bicycle derives from Vehicle alone. */
  predicate HasEngine(kind: VehicleKind) {
    kind != Bicycle
  }

  /** The default of each constructor's no_of_tires parameter. */
  function DefaultTires(kind: VehicleKind): int {
    match kind
    case Car => CarPricing.DefaultTires
    case Motorcycle => MotorcyclePricing.DefaultTires
    case Bicycle => BicyclePricing.DefaultTires
  }

  /** The chassis_cost property of each class. */
  function ChassisCost(kind: VehicleKind): real {
    match kind
    case Car => CarPricing.ChassisCost()
    case Motorcycle => MotorcyclePricing.ChassisCost()
    case Bicycle => BicyclePricing.ChassisCost()
  }

  /** The tire_cost property of each class: the price of one tire. */
  function TireCost(kind: VehicleKind): real {
    match kind
    case Car => CarPricing.TireCost()
    case Motorcycle => MotorcyclePricing.TireCost()
    case Bicycle => BicyclePricing.TireCost()
  }

  /** calculate_engine_cost of the two engine-powered classes. */
  function CalculateEngineCost(kind: VehicleKind, sizeCc: int): real
    requires HasEngine(kind)
  {
    match kind
    case Car => CarPricing.CalculateEngineCost(sizeCc)
    case Motorcycle => MotorcyclePricing.CalculateEngineCost(sizeCc)
  }

  /** The record Vehicle.assemble_vehicle_common builds for n tires. */
  function VehicleOrder(kind: VehicleKind, n: int): Order {
    MakeOrder(Name(kind), [("Chassis", ChassisCost(kind)), ("Tires", TireCost(kind) * n as real)])
  }

  /** The record EnginePoweredVehicle.assemble_vehicle_common builds for n tires and an engine. */
  function EngineVehicleOrder(kind: VehicleKind, n: int, sizeCc: int): Order
    requires HasEngine(kind)
  {
    MakeOrder(Name(kind), [("Chassis", ChassisCost(kind)), ("Tires", TireCost(kind) * n as real),
                           ("Engine", CalculateEngineCost(kind, sizeCc))])
  }

  /** Names tell the classes apart. */
  lemma NamesDistinct(k1: VehicleKind, k2: VehicleKind)
    ensures Name(k1) == Name(k2) <==> k1 == k2
  {
  }

  /**
   * The two-part record: named after the class, exactly the parts Chassis
   * then Tires, Tires priced at n tires, and a total that is their sum.
   */
  lemma VehicleOrderParts(kind: VehicleKind, n: int)
    ensures var o := VehicleOrder(kind, n);
      && o.name == Name(kind)
      && o.parts.Some? && Labels(o.parts.value) == ["Chassis", "Tires"]
      && o.parts.value[0].1 == ChassisCost(kind)
      && o.parts.value[1].1 == n as real * TireCost(kind)
      && o.totalCost == ChassisCost(kind) + n as real * TireCost(kind)
      && Consistent(o)
  {
    var parts := VehicleOrder(kind, n).parts.value;
    assert parts[..1][..0] == [];
    assert SumCosts(parts[..1]) == parts[0].1;
    assert SumCosts(parts) == SumCosts(parts[..1]) + parts[1].1;
  }

  /**
   * The three-part record: exactly Chassis, Tires, Engine in that order,
   * the engine priced by calculate_engine_cost, and a total that is their sum.
   */
  lemma EngineVehicleOrderParts(kind: VehicleKind, n: int, sizeCc: int)
    requires HasEngine(kind)
    ensures var o := EngineVehicleOrder(kind, n, sizeCc);
      && o.name == Name(kind)
      && o.parts.Some? && Labels(o.parts.value) == ["Chassis", "Tires", "Engine"]
      && o.parts.value[0].1 == ChassisCost(kind)
      && o.parts.value[1].1 == n as real * TireCost(kind)
      && o.parts.value[2].1 == CalculateEngineCost(kind, sizeCc)
      && o.totalCost == ChassisCost(kind) + n as real * TireCost(kind) + CalculateEngineCost(kind, sizeCc)
      && Consistent(o)
  {
    var parts := EngineVehicleOrder(kind, n, sizeCc).parts.value;
    assert parts[..2][..1][..0] == [];
    assert SumCosts(parts[..2][..1]) == parts[0].1;
    assert SumCosts(parts[..2]) == SumCosts(parts[..2][..1]) + parts[1].1;
    assert SumCosts(parts) == SumCosts(parts[..2]) + parts[2].1;
  }

  /** Every cost in an assembled record is a whole number of half kronor, hence exact. */
  lemma OrderCostsAreExact(kind: VehicleKind, n: int, sizeCc: int)
    ensures var o := VehicleOrder(kind, n);
      forall i :: 0 <= i < |o.parts.value| ==> PriceList.HalfUnits(o.parts.value[i].1)
    ensures PriceList.HalfUnits(VehicleOrder(kind, n).totalCost)
    ensures HasEngine(kind) ==> var o := EngineVehicleOrder(kind, n, sizeCc);
      forall i :: 0 <= i < |o.parts.value| ==> PriceList.HalfUnits(o.parts.value[i].1)
    ensures HasEngine(kind) ==> PriceList.HalfUnits(EngineVehicleOrder(kind, n, sizeCc).totalCost)
  {
    PriceList.PricesAreExact();
    VehicleOrderParts(kind, n);
    var chassis, tires := ChassisCost(kind), n as real * TireCost(kind);
    PriceList.HalfUnitsScale(TireCost(kind), n);
    PriceList.HalfUnitsAdd(chassis, tires);
    if HasEngine(kind) {
      EngineVehicleOrderParts(kind, n, sizeCc);
      var engine := CalculateEngineCost(kind, sizeCc);
      var material, coef :=
        if kind == Car then PriceList.CarEngineMaterial else PriceList.MotorcycleEngineMaterial,
        if kind == Car then PriceList.CarEngineFitCoef else PriceList.MotorcycleEngineFitCoef;
      assert engine == material + sizeCc as real * coef;
      PriceList.HalfUnitsScale(coef, sizeCc);
      PriceList.HalfUnitsAdd(material, sizeCc as real * coef);
      PriceList.HalfUnitsAdd(chassis + tires, engine);
    }
  }

  /** A Car record: 4 tires at 3000, so 87000 plus 59.50 per cc. */
  lemma CarOrderTotal(sizeCc: int)
    ensures EngineVehicleOrder(Car, CarPricing.AssembledTires, sizeCc).totalCost == 87000.0 + 59.5 * sizeCc as real
  {
    EngineVehicleOrderParts(Car, CarPricing.AssembledTires, sizeCc);
  }

  /** A Motorcycle record with the default 2 tires: 39000 plus 44.50 per cc. */
  lemma MotorcycleOrderTotal(sizeCc: int)
    ensures EngineVehicleOrder(Motorcycle, MotorcyclePricing.DefaultTires, sizeCc).totalCost == 39000.0 + 44.5 * sizeCc as real
  {
    EngineVehicleOrderParts(Motorcycle, MotorcyclePricing.DefaultTires, sizeCc);
  }

  /** A Bicycle record with the default 2 tires: Chassis and Tires only, 3600 in all. */
  lemma BicycleOrderTotal()
    ensures var o := VehicleOrder(Bicycle, BicyclePricing.DefaultTires);
      o.totalCost == 3600.0 && "Engine" !in Labels(o.parts.value)
  {
    VehicleOrderParts(Bicycle, BicyclePricing.DefaultTires);
  }

  /**
   * A vehicle with its running total, its tire count and, for the
   * engine-powered kinds, the size of the fitted engine (None until fitted).
   */
  class Vehicle {
    const kind: VehicleKind
    var totalCost: real
    var noOfTires: int
    var engineSize: Option<int>

    /** Car(no_of_tires = 4). */
    constructor Car(noOfTires: int := CarPricing.DefaultTires)
      ensures kind == VehicleKind.Car && this.noOfTires == noOfTires
      ensures totalCost == 0.0 && engineSize == None
    {
      kind := VehicleKind.Car;
      this.noOfTires := noOfTires;
      totalCost := 0.0;
      engineSize := None;
    }

    /** Motorcycle(no_of_tires = 2). */
    constructor Motorcycle(noOfTires: int := MotorcyclePricing.DefaultTires)
      ensures kind == VehicleKind.Motorcycle && this.noOfTires == noOfTires
      ensures totalCost == 0.0 && engineSize == None
    {
      kind := VehicleKind.Motorcycle;
      this.noOfTires := noOfTires;
      totalCost := 0.0;
      engineSize := None;
    }

    /** Bicycle(no_of_tires = 2). */
    constructor Bicycle(noOfTires: int := BicyclePricing.DefaultTires)
      ensures kind == VehicleKind.Bicycle && this.noOfTires == noOfTires
      ensures totalCost == 0.0 && engineSize == None
    {
      kind := VehicleKind.Bicycle;
      this.noOfTires := noOfTires;
      totalCost := 0.0;
      engineSize := None;
    }

    /** fit_chassis: adds the chassis price to the running total and changes nothing else. */
    method FitChassis()
      modifies this`totalCost
      ensures totalCost == old(totalCost) + ChassisCost(kind)
    {
      totalCost := totalCost + ChassisCost(kind);
    }

    /** fit_tires: records n tires and adds n tire prices to the running total. */
    method FitTires(n: int)
      modifies this`totalCost, this`noOfTires
      ensures noOfTires == n
      ensures totalCost == old(totalCost) + n as real * TireCost(kind)
    {
      noOfTires := n;
      totalCost := totalCost + noOfTires as real * TireCost(kind);
    }

    /** The total_cost setter. */
    method SetTotalCost(value: real)
      modifies this`totalCost
      ensures totalCost == value
    {
      totalCost := value;
    }

    /**
     * Vehicle.assemble_vehicle_common: fits chassis and n tires, builds the
     * record, then overwrites the running total with the record's total. The
     * record and the new state depend only on the kind and n, never on what
     * the running total was before.
     */
    method AssembleVehicleCommon(n: int) returns (order: Order)
      modifies this`totalCost, this`noOfTires
      ensures order == VehicleOrder(kind, n)
      ensures totalCost == order.totalCost && noOfTires == n
    {
      FitChassis();
      FitTires(n);
      var parts := [("Chassis", ChassisCost(kind)), ("Tires", TireCost(kind) * n as real)];
      SetTotalCost(SumCosts(parts));
      order := Order(Name(kind), Some(parts), totalCost);
    }

    /** The engine_cost property: the cost of the fitted engine; None where Python fails on an unset size. */
    function EngineCost(): (r: Option<real>)
      requires HasEngine(kind)
      reads this
      ensures r.Some? <==> engineSize.Some?
      ensures r.Some? ==> r.value == CalculateEngineCost(kind, engineSize.value)
    {
      match engineSize
      case None => None
      case Some(s) => Some(CalculateEngineCost(kind, s))
    }

    /** fit_engine: adds the engine's cost to the running total and records its size. */
    method FitEngine(sizeCc: int)
      requires HasEngine(kind)
      modifies this`totalCost, this`engineSize
      ensures engineSize == Some(sizeCc)
      ensures totalCost == old(totalCost) + CalculateEngineCost(kind, sizeCc)
      ensures EngineCost() == Some(CalculateEngineCost(kind, sizeCc))
    {
      var engineCost := CalculateEngineCost(kind, sizeCc);
      totalCost := totalCost + engineCost;
      engineSize := Some(sizeCc);
    }

    /**
     * EnginePoweredVehicle.assemble_vehicle_common: fits chassis, n tires and
     * the engine, builds the three-part record and overwrites the running
     * total with its total.
     */
    method AssembleEngineVehicleCommon(n: int, sizeCc: int) returns (order: Order)
      requires HasEngine(kind)
      modifies this`totalCost, this`noOfTires, this`engineSize
      ensures order == EngineVehicleOrder(kind, n, sizeCc)
      ensures totalCost == order.totalCost && noOfTires == n && engineSize == Some(sizeCc)
      ensures EngineCost() == Some(CalculateEngineCost(kind, sizeCc))
    {
      FitChassis();
      FitTires(n);
      FitEngine(sizeCc);
      var parts := [("Chassis", ChassisCost(kind)), ("Tires", TireCost(kind) * n as real),
                    ("Engine", CalculateEngineCost(kind, sizeCc))];
      SetTotalCost(SumCosts(parts));
      order := Order(Name(kind), Some(parts), totalCost);
    }

    /** Car.assemble_vehicle: always 4 tires, whatever the constructor was given. */
    method AssembleCar(sizeCc: int) returns (order: Order)
      requires kind == VehicleKind.Car
      modifies this`totalCost, this`noOfTires, this`engineSize
      ensures order == EngineVehicleOrder(VehicleKind.Car, CarPricing.AssembledTires, sizeCc)
      ensures noOfTires == CarPricing.AssembledTires && engineSize == Some(sizeCc)
      ensures totalCost == order.totalCost
    {
      order := AssembleEngineVehicleCommon(CarPricing.AssembledTires, sizeCc);
    }

    /** Motorcycle.assemble_vehicle: the tire count the vehicle already has. */
    method AssembleMotorcycle(sizeCc: int) returns (order: Order)
      requires kind == VehicleKind.Motorcycle
      modifies this`totalCost, this`noOfTires, this`engineSize
      ensures order == EngineVehicleOrder(VehicleKind.Motorcycle, old(noOfTires), sizeCc)
      ensures noOfTires == old(noOfTires) && engineSize == Some(sizeCc)
      ensures totalCost == order.totalCost
    {
      order := AssembleEngineVehicleCommon(noOfTires, sizeCc);
    }

    /** Bicycle.assemble_vehicle: the engine argument, None or not, is ignored. */
    method AssembleBicycle(engineSizeCc: Option<int> := None) returns (order: Order)
      requires kind == VehicleKind.Bicycle
      modifies this`totalCost, this`noOfTires
      ensures order == VehicleOrder(VehicleKind.Bicycle, old(noOfTires))
      ensures noOfTires == old(noOfTires) && totalCost == order.totalCost
    {
      order := AssembleVehicleCommon(noOfTires);
    }
  }

  /**
   * Assembling the same vehicle twice returns two equal records: the second
   * assembly overwrites the running total instead of adding to it.
   */
  method ReassemblyIsStable(v: Vehicle, sizeCc: Option<int>) returns (first: Order, second: Order)
    requires HasEngine(v.kind) ==> sizeCc.Some?
    modifies v
    ensures first == second
    ensures v.totalCost == first.totalCost
  {
    match v.kind {
      case Car =>
        first := v.AssembleCar(sizeCc.value);
        second := v.AssembleCar(sizeCc.value);
      case Motorcycle =>
        first := v.AssembleMotorcycle(sizeCc.value);
        second := v.AssembleMotorcycle(sizeCc.value);
      case Bicycle =>
        first := v.AssembleBicycle(sizeCc);
        second := v.AssembleBicycle(sizeCc);
    }
  }
}
