/**
 * The garage: a fixed-limit store of vehicles kept in an array whose length is a power of
 * two, with AddVehicle, RemoveVehicle, ShowVehicle and the enumerator. Each method is proved
 * against the slot-table functions of GarageSlots and keeps the invariant Valid().
 */
module Garages {
  import opened Wrappers
  import opened Faults
  import opened Vehicles
  import opened GarageCapacity
  import opened GarageSlots

  /** Array.FindIndex's answer as the C# code sees it: an index, -1, or the exception. */
  function FoundIndex(f: FindIndexResult): Result<int, Fault>
  {
    match f
    case FoundAt(i) => Success(i as int)
    case NoMatch => Success(-1)
    case DereferencedEmpty => Failure(NullSlot)
  }

  /** A null-skipping search's answer: an index or -1. */
  function MatchIndex(m: Option<nat>): int
  {
    match m
    case Some(i) => i
    case None => -1
  }

  class Garage {
    var vehicles: array<Option<Vehicle>>
    var capacity: int
    var garageVehicleLimit: int
    var usedSpaces: int

    /**
     * A constructed garage: the array is `capacity` long and that is a power of two between 4
     * and 2^19, the limit lies between 1 and the capacity, and `usedSpaces` counts the
     * occupied slots and never exceeds the limit.
     */
    ghost predicate Valid()
      reads this, vehicles
    {
      && vehicles.Length == capacity
      && IsArrayCapacity(capacity)
      && GarageSizeLowerLimit <= garageVehicleLimit <= capacity
      && 0 <= usedSpaces <= garageVehicleLimit
      && usedSpaces == CountOccupied(vehicles[..])
    }

    /** The field initialisers: an empty array and every counter at 0. */
    constructor Empty()
      ensures fresh(vehicles) && vehicles.Length == 0
      ensures capacity == 0 && garageVehicleLimit == 0 && usedSpaces == 0
    {
      vehicles := new Option<Vehicle>[0];
      capacity := 0;
      garageVehicleLimit := 0;
      usedSpaces := 0;
    }

    /**
     * The constructor `Garage(size)`: `Capacity = size`, then `GarageVehicleLimit = size`.
     * A size outside 1 - 524288 throws from the first setter and no garage exists.
     */
    static method New(size: int) returns (r: Result<Garage, Fault>)
      ensures r.Failure? <==> !(GarageSizeLowerLimit <= size <= GarageSizeUpperLimit)
      ensures r.Failure? ==> r.error == GarageSizeOutOfRange
      ensures r.Success? ==> fresh(r.value) && fresh(r.value.vehicles) && r.value.Valid()
      ensures r.Success? ==> r.value.capacity == ArrayCapacityFor(size) && size <= r.value.capacity
      ensures r.Success? ==> r.value.garageVehicleLimit == size && r.value.usedSpaces == 0
      ensures r.Success? ==> r.value.vehicles[..] == EmptySlots(ArrayCapacityFor(size))
    {
      var g := new Garage.Empty();
      var o := g.SetCapacity(size);
      if o.Fail? {
        return Failure(o.error);
      }
      o := g.SetGarageVehicleLimit(size);
      assert o.Pass?;
      ArrayCapacityIsSmallestPowerOfTwo(size);
      EmptySlotsCount(ArrayCapacityFor(size));
      assert g.vehicles[..] == EmptySlots(ArrayCapacityFor(size));
      r := Success(g);
    }

    /**
     * The private Capacity setter: out-of-range values throw; otherwise the array grows to
     * FindArrayCapacitySize(value) when that is larger than the current capacity
     * (IsCapacityToSmall), and nothing changes when it is not.
     */
    method SetCapacity(value: int) returns (o: Outcome<Fault>)
      requires vehicles.Length == capacity
      modifies this
      ensures vehicles.Length == capacity
      ensures garageVehicleLimit == old(garageVehicleLimit) && usedSpaces == old(usedSpaces)
      ensures o.Fail? <==> !(GarageSizeLowerLimit <= value <= GarageSizeUpperLimit)
      ensures o.Fail? ==> o.error == GarageSizeOutOfRange
      ensures o.Pass? && old(capacity) < ArrayCapacityFor(value) ==>
                fresh(vehicles) && capacity == ArrayCapacityFor(value)
                && vehicles[..] == old(vehicles[..]) + EmptySlots(capacity - old(capacity))
      ensures (o.Fail? || ArrayCapacityFor(value) <= old(capacity)) ==>
                vehicles == old(vehicles) && capacity == old(capacity)
    {
      var inRange := IsWithinGarageMinMaxRange(value);
      if inRange.Failure? {
        return Fail(inRange.error);
      }
      var newCapacity := FindArrayCapacitySize(value);
      if capacity < newCapacity {
        ResizeVehicleArray(newCapacity);
      }
      o := Pass;
    }

    /** ResizeVehicleArray: a new array of the new length holding the old slots first (Array.Copy). */
    method ResizeVehicleArray(newCapacity: int)
      requires vehicles.Length <= newCapacity
      modifies this
      ensures fresh(vehicles) && capacity == newCapacity && vehicles.Length == newCapacity
      ensures vehicles[..] == old(vehicles[..]) + EmptySlots(newCapacity - old(vehicles.Length))
      ensures garageVehicleLimit == old(garageVehicleLimit) && usedSpaces == old(usedSpaces)
    {
      var source := vehicles;
      var tempArray := new Option<Vehicle>[newCapacity](_ => None);
      for i := 0 to source.Length
        modifies tempArray
        invariant forall j :: 0 <= j < i ==> tempArray[j] == source[j]
        invariant forall j :: source.Length <= j < newCapacity ==> tempArray[j].None?
      {
        tempArray[i] := source[i];
      }
      assert tempArray[..] == source[..] + EmptySlots(newCapacity - source.Length);
      vehicles := tempArray;
      capacity := newCapacity;
    }

    /** The private GarageVehicleLimit setter: out-of-range values throw, others are stored. */
    method SetGarageVehicleLimit(value: int) returns (o: Outcome<Fault>)
      modifies this
      ensures vehicles == old(vehicles) && capacity == old(capacity) && usedSpaces == old(usedSpaces)
      ensures o.Fail? <==> !(GarageSizeLowerLimit <= value <= GarageSizeUpperLimit)
      ensures o.Fail? ==> o.error == GarageSizeOutOfRange && garageVehicleLimit == old(garageVehicleLimit)
      ensures o.Pass? ==> garageVehicleLimit == value
    {
      var inRange := IsWithinGarageMinMaxRange(value);
      if inRange.Failure? {
        return Fail(inRange.error);
      }
      garageVehicleLimit := value;
      o := Pass;
    }

    /**
     * The C# helper of this name answers `_vehicles[nextIndex] != null`: true when the slot is
     * occupied, so exactly when a search for an empty slot would have to go past it.
     */
    predicate IsSlotEmpty(nextIndex: int): (occupied: bool)
      requires 0 <= nextIndex < vehicles.Length
      reads this, vehicles
      ensures occupied <==> FirstEmptyFrom(vehicles[..], nextIndex) != nextIndex
    {
      vehicles[nextIndex].Some?
    }

    /** `Array.IndexOf(_vehicles, null)`. */
    method IndexOfNull() returns (index: int)
      ensures index == FirstEmptyFrom(vehicles[..], 0)
    {
      for i := 0 to vehicles.Length
        invariant FirstEmptyFrom(vehicles[..], i) == FirstEmptyFrom(vehicles[..], 0)
      {
        if vehicles[i].None? {
          return i;
        }
      }
      index := -1;
    }

    /**
     * AddVehicle: a full garage throws; otherwise the vehicle goes into slot `UsedSpaces`, or
     * into the first empty slot when that one is taken, and one more space is used. The
     * `Capacity = nextIndex + 1` step never grows the array, since the index is inside it.
     */
    method AddVehicle(vehicle: Vehicle) returns (r: Result<bool, Fault>)
      requires Valid()
      modifies this, vehicles
      ensures Valid() && vehicles == old(vehicles)
      ensures capacity == old(capacity) && garageVehicleLimit == old(garageVehicleLimit)
      ensures r.Failure? <==> old(usedSpaces) == old(garageVehicleLimit)
      ensures r.Failure? ==> r.error == GarageFull && usedSpaces == old(usedSpaces) && vehicles[..] == old(vehicles[..])
      ensures r.Success? ==> r.value && usedSpaces == old(usedSpaces) + 1
      ensures r.Success? ==> vehicles[..] == AddedSlots(old(vehicles[..]), old(usedSpaces), vehicle)
    {
      if usedSpaces == garageVehicleLimit {
        return Failure(GarageFull);
      }
      var nextIndex := usedSpaces;
      if IsSlotEmpty(nextIndex) {
        nextIndex := IndexOfNull();
      }
      ghost var before := vehicles[..];
      assert nextIndex == InsertIndex(before, usedSpaces);
      ArrayCapacityCoversIndex(nextIndex + 1, capacity);
      var o := SetCapacity(nextIndex + 1);
      assert o.Pass?;
      vehicles[nextIndex] := Some(vehicle);
      usedSpaces := usedSpaces + 1;
      CountAfterUpdate(before, nextIndex, Some(vehicle));
      assert vehicles[..] == before[nextIndex := Some(vehicle)];
      r := Success(true);
    }

    /** Array.FindIndex with RemoveVehicle's predicate, which dereferences every slot it reaches. */
    method FindIndex(licensePlate: string) returns (r: Result<int, Fault>)
      ensures r == FoundIndex(FindIndexAsWritten(vehicles[..], licensePlate, 0))
    {
      for i := 0 to vehicles.Length
        invariant FindIndexAsWritten(vehicles[..], licensePlate, i) == FindIndexAsWritten(vehicles[..], licensePlate, 0)
      {
        if vehicles[i].None? {
          return Failure(NullSlot);
        }
        if PlateMatches(vehicles[i].value, licensePlate) {
          return Success(i);
        }
      }
      r := Success(-1);
    }

    /**
     * RemoveVehicle as written: the search throws at the first empty slot it reaches before a
     * match; a match is emptied and returned and one space is freed; no match returns null.
     */
    method RemoveVehicle(licensePlate: string) returns (r: Result<Option<Vehicle>, Fault>)
      requires Valid()
      modifies this, vehicles
      ensures Valid() && vehicles == old(vehicles)
      ensures capacity == old(capacity) && garageVehicleLimit == old(garageVehicleLimit)
      ensures var f := FindIndexAsWritten(old(vehicles[..]), licensePlate, 0);
              && (f.DereferencedEmpty? ==> r == Failure(NullSlot))
              && (f.NoMatch? ==> r == Success(None))
              && (!f.FoundAt? ==> vehicles[..] == old(vehicles[..]) && usedSpaces == old(usedSpaces))
              && (f.FoundAt? ==> r == Success(old(vehicles[f.index])) && r.value.Some?
                                 && vehicles[..] == old(vehicles[..])[f.index := None]
                                 && usedSpaces == old(usedSpaces) - 1)
    {
      var index :- FindIndex(licensePlate);
      if index >= 0 {
        ghost var before := vehicles[..];
        var returnVehicle := vehicles[index];
        vehicles[index] := None;
        usedSpaces := usedSpaces - 1;
        CountAfterUpdate(before, index, None);
        assert vehicles[..] == before[index := None];
        return Success(returnVehicle);
      }
      r := Success(None);
    }

    /** The first occupied slot whose vehicle answers to the plate, skipping empty slots; -1 if none. */
    method FindFirstMatch(licensePlate: string) returns (index: int)
      ensures index == MatchIndex(FirstMatchFrom(vehicles[..], licensePlate, 0))
    {
      for i := 0 to vehicles.Length
        invariant FirstMatchFrom(vehicles[..], licensePlate, i) == FirstMatchFrom(vehicles[..], licensePlate, 0)
      {
        if vehicles[i].Some? && PlateMatches(vehicles[i].value, licensePlate) {
          return i;
        }
      }
      index := -1;
    }

    /**
     * RemoveVehicle with the search guarded against empty slots, as ShowVehicle's is: the
     * first vehicle answering to the plate is removed and returned, and a plate nobody
     * answers to returns null.
     */
    method RemoveVehicleSkippingEmpty(licensePlate: string) returns (r: Option<Vehicle>)
      requires Valid()
      modifies this, vehicles
      ensures Valid() && vehicles == old(vehicles)
      ensures capacity == old(capacity) && garageVehicleLimit == old(garageVehicleLimit)
      ensures var m := FirstMatchFrom(old(vehicles[..]), licensePlate, 0);
              && (m.None? ==> r.None? && vehicles[..] == old(vehicles[..]) && usedSpaces == old(usedSpaces))
              && (m.Some? ==> r == old(vehicles[m.value]) && r.Some? && PlateMatches(r.value, licensePlate)
                              && vehicles[..] == old(vehicles[..])[m.value := None]
                              && usedSpaces == old(usedSpaces) - 1)
    {
      var index := FindFirstMatch(licensePlate);
      if index >= 0 {
        ghost var before := vehicles[..];
        r := vehicles[index];
        vehicles[index] := None;
        usedSpaces := usedSpaces - 1;
        CountAfterUpdate(before, index, None);
        assert vehicles[..] == before[index := None];
        return;
      }
      r := None;
    }

    /**
     * ShowVehicle: the description of the first parked vehicle answering to the plate, or
     * null. `describe` stands for the vehicle's ToString override.
     */
    method ShowVehicle(licensePlate: string, describe: Vehicle -> string) returns (r: Option<string>)
      ensures var m := FirstMatchFrom(vehicles[..], licensePlate, 0);
              && (m.None? ==> r.None?)
              && (m.Some? ==> vehicles[m.value].Some? && r == Some(describe(vehicles[m.value].value)))
    {
      var index := FindFirstMatch(licensePlate);
      if index >= 0 {
        return Some(describe(vehicles[index].value));
      }
      r := None;
    }

    /** GetEnumerator: the vehicles of the occupied slots in slot order, one per used space. */
    method GetEnumerator() returns (parked: seq<Vehicle>)
      requires Valid()
      ensures parked == Occupants(vehicles[..])
      ensures |parked| == usedSpaces
    {
      parked := [];
      for i := 0 to vehicles.Length
        invariant parked == Occupants(vehicles[..i])
      {
        assert vehicles[..i + 1][..i] == vehicles[..i];
        if vehicles[i].Some? {
          parked := parked + [vehicles[i].value];
        }
      }
      assert vehicles[..vehicles.Length] == vehicles[..];
      OccupantsCount(vehicles[..]);
    }

    /**
     * The `foreach` of Add40VehiclesToCollection: adds the vehicles in order; when the garage
     * fills up the next AddVehicle throws, leaving the vehicles added so far in place.
     */
    method AddVehicles(collection: seq<Vehicle>) returns (o: Outcome<Fault>)
      requires Valid()
      modifies this, vehicles
      ensures Valid() && vehicles == old(vehicles)
      ensures capacity == old(capacity) && garageVehicleLimit == old(garageVehicleLimit)
      ensures var room := old(garageVehicleLimit) - old(usedSpaces);
              var added := if room < |collection| then room else |collection|;
              && (o.Pass? <==> |collection| <= room)
              && (o.Fail? ==> o.error == GarageFull)
              && usedSpaces == old(usedSpaces) + added
              && vehicles[..] == AddedAll(old(vehicles[..]), old(usedSpaces), collection[..added])
    {
      ghost var before := vehicles[..];
      ghost var used := usedSpaces;
      for k := 0 to |collection|
        invariant Valid() && vehicles == old(vehicles)
        invariant capacity == old(capacity) && garageVehicleLimit == old(garageVehicleLimit)
        invariant usedSpaces == used + k <= garageVehicleLimit
        invariant vehicles[..] == AddedAll(before, used, collection[..k])
      {
        ghost var prev := vehicles[..];
        var added := AddVehicle(collection[k]);
        if added.Failure? {
          return Fail(added.error);
        }
        AddedAllStep(before, used, collection, k);
        assert vehicles[..] == AddedSlots(prev, used + k, collection[k]);
      }
      assert collection[..|collection|] == collection;
      o := Pass;
    }

    /** Add40VehiclesToCollection: builds the sample fleet and adds it until the garage is full. */
    method Add40VehiclesToCollection() returns (o: Outcome<Fault>)
      requires Valid()
      modifies this, vehicles
      ensures Valid() && vehicles == old(vehicles)
      ensures capacity == old(capacity) && garageVehicleLimit == old(garageVehicleLimit)
      ensures var room := old(garageVehicleLimit) - old(usedSpaces);
              var added := if room < 40 then room else 40;
              && (o.Pass? <==> 40 <= room)
              && (o.Fail? ==> o.error == GarageFull)
              && usedSpaces == old(usedSpaces) + added
              && vehicles[..] == AddedAll(old(vehicles[..]), old(usedSpaces), SampleFleet()[..added])
    {
      var collectionOfDifferentVehicles := SampleFleet();
      o := AddVehicles(collectionOfDifferentVehicles);
    }
  }

  /** A garage of size 5 gets an array of 8 and takes five vehicles; the sixth is refused. */
  method FillScenario(v: Vehicle)
  {
    var created := Garage.New(5);
    var g := created.value;
    assert g.capacity == 8 by { ArrayCapacityExamples(); }
    var r := g.AddVehicle(v);
    r := g.AddVehicle(v);
    r := g.AddVehicle(v);
    r := g.AddVehicle(v);
    r := g.AddVehicle(v);
    assert r == Success(true) && g.usedSpaces == 5;
    r := g.AddVehicle(v);
    assert r == Failure(GarageFull) && g.usedSpaces == 5 && g.capacity == 8;
  }

  /**
   * With the vehicle of slot 0 taken out, RemoveVehicle as written throws when asked for the
   * vehicle in slot 1, and the null-skipping removal returns it.
   */
  method GapScenario(a: Vehicle, b: Vehicle)
    requires a.base.licensePlate == Some("abc111") && b.base.licensePlate == Some("abc112")
  {
    var created := Garage.New(2);
    var g := created.value;
    var r := g.AddVehicle(a);
    assert g.vehicles[0] == Some(a);
    r := g.AddVehicle(b);
    assert g.vehicles[0] == Some(a) && g.vehicles[1] == Some(b);
    assert MatchesAt(g.vehicles[..], 0, "abc111");
    var out := g.RemoveVehicle("abc111");
    assert out == Success(Some(a)) && g.vehicles[0].None? && g.vehicles[1] == Some(b);
    out := g.RemoveVehicle("abc112");
    assert out == Failure(NullSlot) && g.usedSpaces == 1;
    assert !MatchesAt(g.vehicles[..], 0, "abc112") && MatchesAt(g.vehicles[..], 1, "abc112");
    var taken := g.RemoveVehicleSkippingEmpty("abc112");
    assert taken == Some(b) && g.usedSpaces == 0;
  }

  // ---------------------------------------------------------------------------------------
  // The sample fleet

  /** The validator the sample fleet is built with: every plate is accepted. */
  function AcceptAnyPlate(licensePlate: string): Result<bool, Fault>
  {
    Success(true)
  }

  function Built(r: Result<Vehicle, Fault>): Vehicle
    requires r.Success?
  {
    r.value
  }

  /**
   * The 40 vehicles Add40VehiclesToCollection builds, eight of each kind, with plates abc111
   * to abc150; every constructor call succeeds.
   */
  function SampleFleet(): (fleet: seq<Vehicle>)
    ensures |fleet| == 40
  {
    var v := AcceptAnyPlate;
    [
      Built(NewAirPlain(v, "abc111", Red, 4, 2)),
      Built(NewAirPlain(v, "abc112", Blue, 6, 4)),
      Built(NewAirPlain(v, "abc113", Green, 8, 4)),
      Built(NewAirPlain(v, "abc114", Yellow, 6, 2)),
      Built(NewAirPlain(v, "abc115", Red, 8, 1)),
      Built(NewAirPlain(v, "abc116", Blue, 12, 1)),
      Built(NewAirPlain(v, "abc117", Green, 6, 3)),
      Built(NewAirPlain(v, "abc118", Red, 9, 3)),

      Built(NewBoat(v, "abc119", Red, 0, Diesel)),
      Built(NewBoat(v, "abc120", Green, 0, Gasoline)),
      Built(NewBoat(v, "abc121", Blue, 0, Gasoline)),
      Built(NewBoat(v, "abc122", Yellow, 0, Electric)),
      Built(NewBoat(v, "abc123", Blue, 0, NoFuel)),
      Built(NewBoat(v, "abc124", Red, 0, NoFuel)),
      Built(NewBoat(v, "abc125", Green, 0, Diesel)),
      Built(NewBoat(v, "abc126", Green, 0, Gasoline)),

      Built(NewBus(v, "abc127", Green, 4, 1)),
      Built(NewBus(v, "abc128", Red, 6, 2)),
      Built(NewBus(v, "abc129", Red, 6, 2)),
      Built(NewBus(v, "abc130", Green, 4, 1)),
      Built(NewBus(v, "abc131", Blue, 8, 2)),
      Built(NewBus(v, "abc132", Blue, 4, 2)),
      Built(NewBus(v, "abc133", Yellow, 12, 2)),
      Built(NewBus(v, "abc134", Yellow, 12, 2)),

      Built(NewCar(v, "abc135", Red, 4, 5)),
      Built(NewCar(v, "abc136", Red, 4, 6)),
      Built(NewCar(v, "abc137", Green, 4, 6)),
      Built(NewCar(v, "abc138", Blue, 4, 7)),
      Built(NewCar(v, "abc139", Blue, 4, 7)),
      Built(NewCar(v, "abc140", Yellow, 4, 2)),
      Built(NewCar(v, "abc141", Yellow, 4, 2)),
      Built(NewCar(v, "abc142", Green, 4, 5)),

      Built(NewMotorcycle(v, "abc143", Red, 2, false)),
      Built(NewMotorcycle(v, "abc144", Red, 2, false)),
      Built(NewMotorcycle(v, "abc145", Green, 2, false)),
      Built(NewMotorcycle(v, "abc146", Blue, 2, false)),
      Built(NewMotorcycle(v, "abc147", Blue, 2, true)),
      Built(NewMotorcycle(v, "abc148", Yellow, 2, true)),
      Built(NewMotorcycle(v, "abc149", Yellow, 2, true)),
      Built(NewMotorcycle(v, "abc150", Green, 2, true))
    ]
  }
}
