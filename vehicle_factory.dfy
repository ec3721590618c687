/**
 * vehicle_factory.py: the VehicleType enumeration and the static factory
 * that turns a type tag into a fresh vehicle or raises ValueError.
 */
module VehicleFactory {
  import opened Wrappers
  import opened Vehicles
  import CarPricing
  import MotorcyclePricing
  import BicyclePricing

  /** VehicleType: CAR = 1, MOTORCYCLE = 2, BICYCLE = 3. */
  datatype VehicleType = CAR | MOTORCYCLE | BICYCLE

  /**
   * What a caller may pass: None, a VehicleType member, or any other value,
   * which Python formats into the error message as text.
   */
  datatype Argument = NoType | Member(vehicleType: VehicleType) | Unrecognised(text: string)

  /** The ValueError the factory raises, with its message. */
  datatype FactoryError = ValueError(message: string)

  /** The class each member of VehicleType stands for. */
  function KindOf(t: VehicleType): VehicleKind {
    match t
    case CAR => Car
    case MOTORCYCLE => Motorcycle
    case BICYCLE => Bicycle
  }

  /** The VehicleType member naming a class: the inverse of KindOf. */
  function TypeOf(kind: VehicleKind): VehicleType {
    match kind
    case Car => CAR
    case Motorcycle => MOTORCYCLE
    case Bicycle => BICYCLE
  }

  /** The decision create_vehicle makes: which class to build, or which ValueError to raise. */
  function Select(arg: Argument): (r: Result<VehicleKind, FactoryError>)
    ensures r.Success? <==> arg.Member?
    ensures arg.Member? ==> TypeOf(r.value) == arg.vehicleType
    ensures arg.NoType? ==> r == Failure(ValueError("Vehicle type must not be None"))
    ensures arg.Unrecognised? ==> r == Failure(ValueError("Vehicle type " + arg.text + " not recognized"))
  {
    match arg
    case NoType => Failure(ValueError("Vehicle type must not be None"))
    case Member(t) => Success(KindOf(t))
    case Unrecognised(text) => Failure(ValueError("Vehicle type " + text + " not recognized"))
  }

  /** Every class is reachable: selecting a class's own type tag yields that class. */
  lemma SelectReachesEveryKind(kind: VehicleKind)
    ensures Select(Member(TypeOf(kind))) == Success(kind)
  {
    match kind
    case Car =>
    case Motorcycle =>
    case Bicycle =>
  }

  /**
   * create_vehicle: a fresh instance of the selected class with its default
   * tire count, a zero running total and no engine. It holds no state and
   * modifies nothing, so calls cannot affect one another.
   */
  method CreateVehicle(arg: Argument) returns (r: Result<Vehicle, FactoryError>)
    ensures r.Failure? <==> Select(arg).Failure?
    ensures r.Failure? ==> r.error == Select(arg).error
    ensures r.Success? ==> fresh(r.value) && r.value.kind == Select(arg).value
    ensures r.Success? ==> r.value.noOfTires == DefaultTires(r.value.kind)
    ensures r.Success? ==> r.value.totalCost == 0.0 && r.value.engineSize == None
  {
    if arg.NoType? {
      r := Failure(ValueError("Vehicle type must not be None"));
    } else if arg.Unrecognised? {
      r := Failure(ValueError("Vehicle type " + arg.text + " not recognized"));
    } else if arg.vehicleType == CAR {
      var v := new Vehicle.Car();
      r := Success(v);
    } else if arg.vehicleType == MOTORCYCLE {
      var v := new Vehicle.Motorcycle();
      r := Success(v);
    } else {
      var v := new Vehicle.Bicycle();
      r := Success(v);
    }
  }
}
