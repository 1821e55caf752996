/**
 * Vehicle records: the common part held by every vehicle (plate, colour, wheels) and the
 * five kinds with their own field. Each C# constructor becomes a checked constructor that
 * either returns the record or the fault the constructor would throw, in the order the
 * C# setters run: the injected plate validator, the wheel range, then the kind's own field.
 */
module Vehicles {
  import opened Wrappers
  import opened Faults

  /** C#'s `uint`. */
  newtype uint32 = x: int | 0 <= x < 0x1_0000_0000

  datatype VehicleColor = Red | Blue | Green | Yellow

  datatype FuelType = NoFuel | Diesel | Gasoline | Electric

  datatype VehicleKind = AirPlainKind | BoatKind | BusKind | CarKind | MotorcycleKind

  /** The injected license-plate validator: returns true or false, or throws. */
  type PlateValidator = string -> Result<bool, Fault>

  const MaxWheels: uint32 := 56
  const MaxEngines: uint32 := 10
  const MinDoors: uint32 := 1
  const MaxDoors: uint32 := 2
  const MaxSeats: uint32 := 7

  /** The fields of the abstract base class; a plate the validator refused stays null (None). */
  datatype VehicleBase = VehicleBase(licensePlate: Option<string>, color: VehicleColor, wheels: uint32)

  datatype Vehicle =
    | AirPlain(base: VehicleBase, numberOfEngines: uint32)
    | Boat(base: VehicleBase, fuelType: FuelType)
    | Bus(base: VehicleBase, nrOfDoors: uint32)
    | Car(base: VehicleBase, nrOfSeats: uint32)
    | Motorcycle(base: VehicleBase, hasSidecar: bool)
  {
    function Kind(): VehicleKind
    {
      match this
      case AirPlain(_, _) => AirPlainKind
      case Boat(_, _) => BoatKind
      case Bus(_, _) => BusKind
      case Car(_, _) => CarKind
      case Motorcycle(_, _) => MotorcycleKind
    }
  }

  // ---------------------------------------------------------------------------------------
  // Base class: the LicensePlate and Wheels setters and the constructor

  /** The plate a validator call leaves in the field: the new value on true, the old one on false. */
  function PlateAfter(validator: PlateValidator, current: Option<string>, value: string): Option<string>
    requires validator(value).Success?
  {
    if validator(value).value then Some(value) else current
  }

  /** The LicensePlate setter: a throwing validator aborts, false keeps the old plate. */
  function AssignLicensePlate(validator: PlateValidator, current: Option<string>, value: string): (r: Result<Option<string>, Fault>)
    ensures validator(value).Failure? ==> r == Failure(validator(value).error)
    ensures validator(value).Success? ==> r == Success(PlateAfter(validator, current, value))
    ensures r.Success? && r.value.Some? ==> r.value == current || r.value == Some(value)
  {
    var accepted :- validator(value);
    if accepted then Success(Some(value)) else Success(current)
  }

  /** IsWheelsValid: true, or ArgumentOutOfRangeException above 56. */
  function IsWheelsValid(value: uint32): (r: Result<bool, Fault>)
    ensures r.Success? <==> value <= MaxWheels
    ensures r.Success? ==> r.value
    ensures r.Failure? ==> r.error == WheelsOutOfRange && ExceptionOf(r.error) == ArgumentOutOfRangeException
  {
    if value > MaxWheels then Failure(WheelsOutOfRange) else Success(true)
  }

  /** The Wheels setter applied to a vehicle: a rejected count throws and the old count stays. */
  function SetWheels(v: Vehicle, value: uint32): (r: Result<Vehicle, Fault>)
    ensures r.Success? <==> value <= MaxWheels
    ensures r.Failure? ==> r.error == WheelsOutOfRange
    ensures r.Success? ==> r.value.base.wheels == value && r.value.Kind() == v.Kind()
    ensures r.Success? ==> r.value == v.(base := v.base.(wheels := value))
  {
    var ok :- IsWheelsValid(value);
    Success(v.(base := v.base.(wheels := value)))
  }

  /**
   * The public LicensePlate setter applied to a vehicle. C# runs the validator the vehicle
   * was built with; here the caller passes it, since a record holding a function could not
   * be compared for equality.
   */
  function SetLicensePlate(v: Vehicle, validator: PlateValidator, value: string): (r: Result<Vehicle, Fault>)
    ensures validator(value).Failure? ==> r == Failure(validator(value).error)
    ensures validator(value).Success? && validator(value).value ==> r == Success(v.(base := v.base.(licensePlate := Some(value))))
    ensures validator(value).Success? && !validator(value).value ==> r == Success(v)
  {
    var plate :- AssignLicensePlate(validator, v.base.licensePlate, value);
    Success(v.(base := v.base.(licensePlate := plate)))
  }

  /** The VehicleBase constructor: validator, then plate, then colour, then wheels. */
  function NewVehicleBase(validator: PlateValidator, licensePlate: string, color: VehicleColor, wheels: uint32): (r: Result<VehicleBase, Fault>)
    ensures r.Success? <==> validator(licensePlate).Success? && wheels <= MaxWheels
    ensures validator(licensePlate).Failure? ==> r == Failure(validator(licensePlate).error)
    ensures validator(licensePlate).Success? && wheels > MaxWheels ==> r == Failure(WheelsOutOfRange)
    ensures r.Success? ==> r.value.color == color && r.value.wheels == wheels
    ensures r.Success? ==> r.value.licensePlate == (if validator(licensePlate).value then Some(licensePlate) else None)
  {
    var plate :- AssignLicensePlate(validator, None, licensePlate);
    var ok :- IsWheelsValid(wheels);
    Success(VehicleBase(plate, color, wheels))
  }

  // ---------------------------------------------------------------------------------------
  // The five kinds

  function IsValidNumberOfEngines(value: uint32): (r: Result<bool, Fault>)
    ensures r.Success? <==> value <= MaxEngines
    ensures r.Success? ==> r.value
    ensures r.Failure? ==> r.error == EnginesOutOfRange && ExceptionOf(r.error) == ArgumentOutOfRangeException
  {
    if value > MaxEngines then Failure(EnginesOutOfRange) else Success(true)
  }

  /**
   * AirPlain's constructor hands `numberOfEngines` to the base in the wheels position, so the
   * `wheels` argument is never read and the stored wheel count is the engine count.
   */
  function NewAirPlain(validator: PlateValidator, licensePlate: string, color: VehicleColor, wheels: uint32, numberOfEngines: uint32): (r: Result<Vehicle, Fault>)
    ensures r.Success? <==> validator(licensePlate).Success? && numberOfEngines <= MaxEngines
    ensures validator(licensePlate).Failure? ==> r == Failure(validator(licensePlate).error)
    ensures validator(licensePlate).Success? && numberOfEngines > MaxWheels ==> r == Failure(WheelsOutOfRange)
    ensures validator(licensePlate).Success? && MaxEngines < numberOfEngines <= MaxWheels ==> r == Failure(EnginesOutOfRange)
    ensures r.Success? ==> r.value.AirPlain? && r.value.numberOfEngines == numberOfEngines
    ensures r.Success? ==> r.value.base.wheels == numberOfEngines && r.value.base.color == color
    ensures r.Success? ==> r.value.base.licensePlate == (if validator(licensePlate).value then Some(licensePlate) else None)
  {
    var base :- NewVehicleBase(validator, licensePlate, color, numberOfEngines);
    var ok :- IsValidNumberOfEngines(numberOfEngines);
    Success(AirPlain(base, numberOfEngines))
  }

  function IsValidNrOfBussDoor(value: uint32): (r: Result<bool, Fault>)
    ensures r.Success? <==> MinDoors <= value <= MaxDoors
    ensures r.Success? ==> r.value
    ensures r.Failure? ==> r.error == DoorsOutOfRange && ExceptionOf(r.error) == ArgumentOutOfRangeException
  {
    if value < MinDoors || value > MaxDoors then Failure(DoorsOutOfRange) else Success(true)
  }

  function NewBus(validator: PlateValidator, licensePlate: string, color: VehicleColor, wheels: uint32, nrOfDoors: uint32): (r: Result<Vehicle, Fault>)
    ensures r.Success? <==> validator(licensePlate).Success? && wheels <= MaxWheels && MinDoors <= nrOfDoors <= MaxDoors
    ensures validator(licensePlate).Failure? ==> r == Failure(validator(licensePlate).error)
    ensures validator(licensePlate).Success? && wheels > MaxWheels ==> r == Failure(WheelsOutOfRange)
    ensures validator(licensePlate).Success? && wheels <= MaxWheels && !(MinDoors <= nrOfDoors <= MaxDoors) ==> r == Failure(DoorsOutOfRange)
    ensures r.Success? ==> r.value.Bus? && r.value.nrOfDoors == nrOfDoors && r.value.base == NewVehicleBase(validator, licensePlate, color, wheels).value
  {
    var base :- NewVehicleBase(validator, licensePlate, color, wheels);
    var ok :- IsValidNrOfBussDoor(nrOfDoors);
    Success(Bus(base, nrOfDoors))
  }

  /** IsValidNrOfSeats: the lower bound test is on an unsigned value, so 0 seats is accepted. */
  function IsValidNrOfSeats(value: uint32): (r: Result<bool, Fault>)
    ensures r.Success? <==> value <= MaxSeats
    ensures r.Success? ==> r.value
    ensures r.Failure? ==> r.error == SeatsOutOfRange && ExceptionOf(r.error) == ArgumentOutOfRangeException
  {
    if value > MaxSeats then Failure(SeatsOutOfRange) else Success(true)
  }

  function NewCar(validator: PlateValidator, licensePlate: string, color: VehicleColor, wheels: uint32, nrOfSeats: uint32): (r: Result<Vehicle, Fault>)
    ensures r.Success? <==> validator(licensePlate).Success? && wheels <= MaxWheels && nrOfSeats <= MaxSeats
    ensures validator(licensePlate).Failure? ==> r == Failure(validator(licensePlate).error)
    ensures validator(licensePlate).Success? && wheels > MaxWheels ==> r == Failure(WheelsOutOfRange)
    ensures validator(licensePlate).Success? && wheels <= MaxWheels && nrOfSeats > MaxSeats ==> r == Failure(SeatsOutOfRange)
    ensures r.Success? ==> r.value.Car? && r.value.nrOfSeats == nrOfSeats && r.value.base == NewVehicleBase(validator, licensePlate, color, wheels).value
  {
    var base :- NewVehicleBase(validator, licensePlate, color, wheels);
    var ok :- IsValidNrOfSeats(nrOfSeats);
    Success(Car(base, nrOfSeats))
  }

  /** Boat: any fuel type is accepted, so only the base checks can fail. */
  function NewBoat(validator: PlateValidator, licensePlate: string, color: VehicleColor, wheels: uint32, fuelType: FuelType): (r: Result<Vehicle, Fault>)
    ensures r.Success? <==> validator(licensePlate).Success? && wheels <= MaxWheels
    ensures r.Failure? ==> r.error == NewVehicleBase(validator, licensePlate, color, wheels).error
    ensures r.Success? ==> r.value.Boat? && r.value.fuelType == fuelType && r.value.base == NewVehicleBase(validator, licensePlate, color, wheels).value
  {
    var base :- NewVehicleBase(validator, licensePlate, color, wheels);
    Success(Boat(base, fuelType))
  }

  /** Motorcycle: the sidecar flag has no check of its own. */
  function NewMotorcycle(validator: PlateValidator, licensePlate: string, color: VehicleColor, wheels: uint32, hasSidecar: bool): (r: Result<Vehicle, Fault>)
    ensures r.Success? <==> validator(licensePlate).Success? && wheels <= MaxWheels
    ensures r.Failure? ==> r.error == NewVehicleBase(validator, licensePlate, color, wheels).error
    ensures r.Success? ==> r.value.Motorcycle? && r.value.hasSidecar == hasSidecar && r.value.base == NewVehicleBase(validator, licensePlate, color, wheels).value
  {
    var base :- NewVehicleBase(validator, licensePlate, color, wheels);
    Success(Motorcycle(base, hasSidecar))
  }

  // ---------------------------------------------------------------------------------------
  // Properties across the constructors

  /** Every constructed vehicle satisfies the record invariants: wheels and the kind's field in range. */
  ghost predicate WellFormed(v: Vehicle)
  {
    && v.base.wheels <= MaxWheels
    && match v
       case AirPlain(_, engines) => engines <= MaxEngines
       case Bus(_, doors) => MinDoors <= doors <= MaxDoors
       case Car(_, seats) => seats <= MaxSeats
       case Boat(_, _) => true
       case Motorcycle(_, _) => true
  }

  /** What the five constructors accept is exactly the well-formed records they describe. */
  lemma ConstructedVehiclesAreWellFormed(validator: PlateValidator, plate: string, color: VehicleColor, wheels: uint32, n: uint32, fuel: FuelType, sidecar: bool)
    ensures NewAirPlain(validator, plate, color, wheels, n).Success? ==> WellFormed(NewAirPlain(validator, plate, color, wheels, n).value)
    ensures NewBus(validator, plate, color, wheels, n).Success? ==> WellFormed(NewBus(validator, plate, color, wheels, n).value)
    ensures NewCar(validator, plate, color, wheels, n).Success? ==> WellFormed(NewCar(validator, plate, color, wheels, n).value)
    ensures NewBoat(validator, plate, color, wheels, fuel).Success? ==> WellFormed(NewBoat(validator, plate, color, wheels, fuel).value)
    ensures NewMotorcycle(validator, plate, color, wheels, sidecar).Success? ==> WellFormed(NewMotorcycle(validator, plate, color, wheels, sidecar).value)
  {
  }

  /** A plate the validator throws on aborts every constructor with that same fault, whatever the other arguments. */
  lemma PlateFaultWins(validator: PlateValidator, plate: string, color: VehicleColor, wheels: uint32, n: uint32, fuel: FuelType, sidecar: bool)
    requires validator(plate).Failure?
    ensures NewAirPlain(validator, plate, color, wheels, n) == Failure(validator(plate).error)
    ensures NewBus(validator, plate, color, wheels, n) == Failure(validator(plate).error)
    ensures NewCar(validator, plate, color, wheels, n) == Failure(validator(plate).error)
    ensures NewBoat(validator, plate, color, wheels, fuel) == Failure(validator(plate).error)
    ensures NewMotorcycle(validator, plate, color, wheels, sidecar) == Failure(validator(plate).error)
  {
  }
}
