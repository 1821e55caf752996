# Garage storage engine — a Dafny model

This project models the core of the LexiconExercise5 garage application. It covers:

- the generic `Garage<T>`, a bounded slot table kept in a power-of-two array;
- the license-plate validation and registry;
- the vehicle records and their checked constructors;
- the filter predicates the console layer composes into queries.

Nothing here runs the C# program. Every row of the "## Model" table names a verified Dafny contract or lemma about the model.

Modules, one per file:

- `Wrappers` and `Faults` (`wrappers.dfy`):
  - `Option` stands for a nullable reference.
  - `Result` and `Outcome` stand for a call that returns or throws.
  - `Fault` has one constructor per throw site, and `ExceptionOf` gives the .NET exception class each is raised as.
- `Vehicles` (`vehicles.dfy`):
  - `VehicleBase` and the tagged union `Vehicle` (AirPlain, Boat, Bus, Car, Motorcycle).
  - Each C# constructor is a function returning the record or the fault it throws. The checks run in the C# order: injected plate validator, then wheels, then the kind's own field.
- `LicensePlates` (`license_plates.dfy`):
  - `IsValidLicensePlate` with its ordered checks.
  - The `LicensePlateRegistry` class over an owned `set<string>`.
- `Filters` (`filters.dfy`): the comparison and vehicle predicates, as function values.
- `GarageCapacity` (`garage_capacity.dfy`):
  - The size range check.
  - `FindArrayCapacitySize`, a loop over the exponents 2..19, proved equal to the smallest power of two that is at least the size and at least 4.
- `GarageSlots` (`garage_slots.dfy`): the slot table as a value (`seq<Option<Vehicle>>`), with the functions that specify the garage's methods:
  - the occupied count and the occupants in slot order;
  - `Array.IndexOf(_, null)`;
  - the `FindIndex` of `RemoveVehicle` as written;
  - the null-skipping search of `ShowVehicle`;
  - the slot `AddVehicle` picks.

  It also holds the lemmas relating these functions.
- `Garages` (`garage.dfy`): the `Garage` class.
  - Its fields are `vehicles: array<Option<Vehicle>>`, `capacity`, `garageVehicleLimit` and `usedSpaces`.
  - Its invariant `Valid()` says:
    - the number of non-empty slots is `usedSpaces`;
    - `usedSpaces <= garageVehicleLimit <= capacity == vehicles.Length`;
    - the capacity is a power of two in 4 … 2^19.
  - Every method callable on a constructed garage (`AddVehicle`, `RemoveVehicle`, `RemoveVehicleSkippingEmpty`, `AddVehicles`, `Add40VehiclesToCollection`) keeps `Valid()` and states its new state in terms of the `GarageSlots` functions. `New` establishes `Valid()`. The private setters `SetCapacity` and `SetGarageVehicleLimit`, and the private `ResizeVehicleArray`, are called only from `New` and `AddVehicle`. They state their effect on the fields, and their callers prove `Valid()`.

Where the project's own descriptions and the code differ, the model follows the code:

- `IsValidLicensePlate` performs no uniqueness check and registers nothing. Those lines are commented out.
- `IsUniqueLicensePlate` compares plates case-sensitively.
- `RemoveVehicle` dereferences empty slots instead of treating a miss as a soft "not found". See Findings.

Source-level choices:

- C#'s `uint` is the newtype `uint32`.
- `(int)v.Wheels` in `ByWheelCountPredicate` is the unchecked cast `AsInt32`.
- The C# constructor `Garage(int size)` can throw, so it is the static method `Garage.New`. `New` builds the field-initialiser state (`Empty`) and then runs the two setters in order.

## Model

| member | source | states |
|---|---|---|
| Vehicles.AssignLicensePlate | LexiconExercise5_Garage/Vehicles/VehicleBase.cs:24-34 | a validator that throws aborts with its fault; `true` stores the value; `false` keeps the previous plate |
| Vehicles.SetLicensePlate | LexiconExercise5_Garage/Vehicles/VehicleBase.cs:29-33 | on a vehicle: a plate accepted by the validator replaces the old one, a refused one leaves the vehicle unchanged, and a validator exception propagates |
| Vehicles.IsWheelsValid | LexiconExercise5_Garage/Vehicles/VehicleBase.cs:79-85 | succeeds exactly for 0 … 56 wheels; otherwise throws ArgumentOutOfRangeException |
| Vehicles.SetWheels | LexiconExercise5_Garage/Vehicles/VehicleBase.cs:46-54 | an accepted count replaces only the wheel count; a rejected one fails and no new vehicle exists |
| Vehicles.NewVehicleBase | LexiconExercise5_Garage/Vehicles/VehicleBase.cs:66-76 | succeeds iff the validator does not throw and wheels ≤ 56; a validator fault wins over the wheel check; colour and wheels are stored as given; the plate is stored verbatim exactly when the validator returns true, and is null otherwise |
| Vehicles.IsValidNumberOfEngines | LexiconExercise5_Garage/Vehicles/Airplains/AirPlain.cs:25-30 | succeeds exactly for 0 … 10 engines, else ArgumentOutOfRangeException |
| Vehicles.NewAirPlain | LexiconExercise5_Garage/Vehicles/Airplains/AirPlain.cs:41-50 | the base receives the engine count as its wheel count, so stored wheels == engines and the `wheels` argument is ignored; order: validator, then that wheel check (engines > 56 is a wheel fault), then the engine check; success stores the engine count |
| Vehicles.IsValidNrOfBussDoor | LexiconExercise5_Garage/Vehicles/Bus/Bus.cs:32-38 | succeeds exactly for 1 or 2 doors, else ArgumentOutOfRangeException |
| Vehicles.NewBus | LexiconExercise5_Garage/Vehicles/Bus/Bus.cs:11-20 | succeeds iff validator, wheels and doors all pass; faults come in that order; the result has the base the base constructor builds and the given door count |
| Vehicles.IsValidNrOfSeats | LexiconExercise5_Garage/Vehicles/Cars/Car.cs:44-50 | succeeds exactly for seats ≤ 7, including 0; 8 or more throws ArgumentOutOfRangeException |
| Vehicles.NewCar | LexiconExercise5_Garage/Vehicles/Cars/Car.cs:33-42 | succeeds iff validator, wheels and seats all pass, in that order; wheels go through to the base unchanged; the seat count is stored |
| Vehicles.NewBoat | LexiconExercise5_Garage/Vehicles/Boats/Boat.cs:17-26 | only the base checks can fail, so every fuel type is accepted; the fuel type is stored |
| Vehicles.NewMotorcycle | LexiconExercise5_Garage/Vehicles/Motorcycle/Motorcycle.cs:22-31 | only the base checks can fail; the sidecar flag is stored for both values |
| Vehicles.ConstructedVehiclesAreWellFormed | LexiconExercise5_Garage/Vehicles/VehicleBase.cs:66-76 | every vehicle a constructor returns has wheels ≤ 56 and its kind's field in range |
| Vehicles.PlateFaultWins | LexiconExercise5_Garage/Vehicles/VehicleBase.cs:72-75 | a validator exception aborts all five constructors with that fault, whatever the other arguments |
| LicensePlates.IsValidLicensePlate | LexiconExercise5_Garage/Vehicles/LicensePlate.Registry/LicensePlateRegistry.cs:33-50 | true iff the plate is three ASCII letters then three ASCII digits; otherwise, in order: blank → ArgumentNullException, a length other than 6 UTF-16 code units → ArgumentOutOfRangeException, pattern → ArgumentException; it does not read the registry |
| LicensePlates.Utf16LengthIsCount | LexiconExercise5_Garage/Vehicles/LicensePlate.Registry/LicensePlateRegistry.cs:38 | `string.Length` counts UTF-16 code units: at most twice the character count, and equal to it exactly when no character lies outside the Basic Multilingual Plane |
| LicensePlates.ValidationExamples | LexiconExcercise5.Garage.TestProject/VehiclesTests/VehicleBaseClassTest.cs:62-193 | the accepted plates BBK159, azm129, uRE832 succeed; the empty and the all-blank plate fail with ArgumentNullException |
| LicensePlates.LengthRejectionExamples | LexiconExcercise5.Garage.TestProject/VehiclesTests/VehicleBaseClassTest.cs:62-193 | azmm129 and uRE32 fail the length check |
| LicensePlates.FormatRejectionExamples | LexiconExcercise5.Garage.TestProject/VehiclesTests/VehicleBaseClassTest.cs:62-193 | 159KBB and u3E3b2 pass the length check and fail the pattern |
| LicensePlates.SupplementaryCharacterExamples | LexiconExercise5_Garage/Vehicles/LicensePlate.Registry/LicensePlateRegistry.cs:38-42 | a five-character plate containing an emoji has six code units and fails the pattern; a six-character one has seven and fails the length check |
| LicensePlates.LicensePlateRegistry.constructor | LexiconExercise5_Garage/Vehicles/LicensePlate.Registry/LicensePlateRegistry.cs:21-25 | the registry starts from the set its storage held |
| LicensePlates.LicensePlateRegistry.IsUniqueLicensePlate | LexiconExercise5_Garage/Vehicles/LicensePlate.Registry/LicensePlateRegistry.cs:54-60 | true iff no case-sensitively equal plate is registered, else InvalidOperationException; reads the set only |
| LicensePlates.LicensePlateRegistry.RegisterLicensePlate | LexiconExercise5_Garage/Vehicles/LicensePlate.Registry/LicensePlateRegistry.cs:63-67 | the set becomes old ∪ {plate}, so registering twice is idempotent |
| LicensePlates.LicensePlateRegistry.ClearAllLicensePlates | LexiconExercise5_Garage/Vehicles/LicensePlate.Registry/LicensePlateRegistry.cs:70-74 | the set becomes empty |
| LicensePlates.LicensePlateRegistry.RemoveLicensePlate | LexiconExercise5_Garage/Vehicles/LicensePlate.Registry/LicensePlateRegistry.cs:77-81 | the set becomes old \ {plate}; removing an absent plate changes nothing |
| Filters.AsInt32 | LexiconExercise5_Garage/Util/VehiclesFilterFunctions.cs:26-27 | the unchecked `(int)` cast of a `uint`: equal modulo 2^32, in the int32 range, negative exactly from 2^31 up |
| Filters.EqualTo | LexiconExercise5_Garage/Util/VehiclesFilterFunctions.cs:42-43 | holds of x iff x == value |
| Filters.GreaterThan | LexiconExercise5_Garage/Util/VehiclesFilterFunctions.cs:50-51 | holds of x iff x > value |
| Filters.LessThan | LexiconExercise5_Garage/Util/VehiclesFilterFunctions.cs:58-59 | holds of x iff x < value |
| Filters.WhichNumericComparePredicate | LexiconExercise5_Garage/Util/VehiclesFilterFunctions.cs:70-78 | Equal picks EqualTo, GreaterThan picks GreaterThan, and the remaining option LessThen falls through to LessThan |
| Filters.ComparisonsPartition | LexiconExercise5_Garage/Util/VehiclesFilterFunctions.cs:42-59 | for every threshold and number exactly one of the three comparisons holds |
| Filters.ChosenPredicateSplitsIntegers | LexiconExercise5_Garage/Util/CompareOptions.cs:6-11 | the chosen predicate is the comparison the option names |
| Filters.VehicleTypePredicate | LexiconExercise5_Garage/Util/VehiclesFilterFunctions.cs:18-19 | holds of a vehicle iff it is of the given kind |
| Filters.ByWheelCountPredicate | LexiconExercise5_Garage/Util/VehiclesFilterFunctions.cs:26-27 | applies the comparison to the int-cast wheel count, which is the wheel count itself for every valid vehicle |
| Filters.ByColorPredicate | LexiconExercise5_Garage/Util/VehiclesFilterFunctions.cs:34-35 | holds of a vehicle iff its colour is the desired one |
| GarageCapacity.IsWithinGarageMinMaxRange | LexiconExercise5_Garage/Garages/Garage.cs:130-137 | true for 1 … 524288, else ArgumentOutOfRangeException |
| GarageCapacity.FindArrayCapacitySize | LexiconExercise5_Garage/Garages/Garage.cs:101-128 | the loop's result is `ArrayCapacityFor(size)`; for an admissible size it is a power of two in 4 … 2^19 and at least the size; above 2^19 it is 0 |
| GarageCapacity.ArrayCapacityIsSmallestPowerOfTwo | LexiconExercise5_Garage/Garages/Garage.cs:101-128 | for sizes 1 … 2^19 the capacity is the least power of two that is ≥ 4 and ≥ size, and at most 2^19 |
| GarageCapacity.ArrayCapacityOutsideRange | LexiconExercise5_Garage/Garages/Garage.cs:106-124 | every size ≤ 4 (0 and negatives included) gives 4; every size above 2^19 gives 0 |
| GarageCapacity.ArrayCapacityExamples | LexiconExcercise5.Garage.TestProject/GaragesTests/GarageTests.cs:28-72 | sizes 1, 2, 4 give 4; 5 gives 8; 524288 gives 524288 |
| GarageCapacity.ArrayCapacityCoversIndex | LexiconExercise5_Garage/Garages/Garage.cs:161 | for an index inside an array whose length is a garage capacity, `FindArrayCapacitySize(index + 1)` does not exceed that length, so `Capacity = nextIndex + 1` never reallocates |
| GarageSlots.OccupantsCount | LexiconExercise5_Garage/Garages/Garage.cs:227-237 | the enumerated vehicles number exactly the occupied slots |
| GarageSlots.OccupantsMembership | LexiconExercise5_Garage/Garages/Garage.cs:230-234 | a vehicle is enumerated iff some slot holds it |
| GarageSlots.CountAfterUpdate | LexiconExercise5_Garage/Garages/Garage.cs:162-163 | writing a slot changes the occupied count by what leaves and what enters it |
| GarageSlots.OccupantsAfterUpdate | LexiconExercise5_Garage/Garages/Garage.cs:162 | writing a slot changes the enumeration only at that slot's position |
| GarageSlots.CountWithEmptyTail | LexiconExercise5_Garage/Garages/Garage.cs:50-56 | growing the array with empty slots keeps the occupied count |
| GarageSlots.EmptySlotsCount | LexiconExercise5_Garage/Garages/Garage.cs:52 | a freshly allocated array has no occupied slot |
| GarageSlots.HasEmptySlot | LexiconExercise5_Garage/Garages/Garage.cs:158-159 | fewer occupied slots than slots means an empty slot exists, so the fallback `IndexOf(null)` never returns -1 |
| GarageSlots.FullHasNoEmptySlot | LexiconExercise5_Garage/Garages/Garage.cs:155-159 | when every slot is counted as occupied, none is empty |
| GarageSlots.FirstEmptyFrom | LexiconExercise5_Garage/Garages/Garage.cs:159 | the lowest empty slot at or after the start, or -1 exactly when there is none |
| GarageSlots.FirstMatchFrom | LexiconExercise5_Garage/Garages/Garage.cs:182-190 | the lowest occupied slot whose plate equals the argument ignoring case, or none exactly when no slot matches |
| GarageSlots.FindIndexAsWritten | LexiconExercise5_Garage/Garages/Garage.cs:202-208 | found: the first match, with every slot before it occupied and not matching; no match: every slot occupied and none matching; otherwise an empty slot was reached before any match |
| GarageSlots.InsertIndex | LexiconExercise5_Garage/Garages/Garage.cs:153-159 | the chosen slot is empty; it is `usedSpaces` when that slot is empty, else the lowest empty slot |
| GarageSlots.AddedSlotsCount | LexiconExercise5_Garage/Garages/Garage.cs:161-163 | adding keeps the number of slots and raises the occupied count by exactly one |
| GarageSlots.AddedSlotsSpec | LexiconExercise5_Garage/Garages/Garage.cs:153-162 | adding fills exactly the chosen, previously empty slot and leaves every other slot unchanged |
| GarageSlots.AddedSlotsOrder | LexiconExercise5_Garage/Garages/Garage.cs:162 | the vehicle enters the enumeration at the position of its slot, and the parked vehicles keep their order |
| GarageSlots.AddedAll | LexiconExercise5_Garage/Garages/Garage.cs:297-300 | repeated adds keep the array length and raise the count by the number of vehicles |
| GarageSlots.AddedAllStep | LexiconExercise5_Garage/Garages/Garage.cs:297-300 | adding the next vehicle of the collection is one more AddVehicle step on the table so far |
| GarageSlots.AddedSlotsOccupants | LexiconExercise5_Garage/Garages/Garage.cs:146-166 | one add puts exactly that vehicle among the parked ones (multiset) |
| GarageSlots.AddThenFind | LexiconExercise5_Garage/Garages/Garage.cs:178-191 | after adding a vehicle under a plate no parked vehicle answers to, the lookup finds it in the slot it was put in |
| GarageSlots.AddThenRemoveRestores | LexiconExercise5_Garage/Garages/Garage.cs:146-166 | with the null-skipping search of the corrected `RemoveVehicleSkippingEmpty`: removing that plate right after adding gives the vehicle back and restores the slots and the count exactly |
| GarageSlots.FindIndexAsWrittenBeforeMatch | LexiconExercise5_Garage/Garages/Garage.cs:202-208 | when the first slot answering to the plate is slot i, `RemoveVehicle`'s search finds i iff every slot before it is occupied, and otherwise dereferences an empty slot |
| GarageSlots.AddThenRemoveAsWritten | LexiconExercise5_Garage/Garages/Garage.cs:146-166 | with `RemoveVehicle` as written, the add/remove round trip under a fresh plate finds the added vehicle iff the slot it went into was the table's first empty slot, and otherwise throws on an earlier empty slot |
| GarageSlots.AddThenRemoveAsWrittenFails | LexiconExercise5_Garage/Garages/Garage.cs:146-166 | for the table [_, b, _, d] the next vehicle goes into slot 2; `RemoveVehicle` as written dereferences slot 0, while the null-skipping search finds slot 2 |
| GarageSlots.RemoveThenAddReusesSlot | LexiconExercise5_Garage/Garages/Garage.cs:155-159 | in a full table, emptying slot i and adding again fills slot i |
| GarageSlots.FindIndexAgreesWhenFull | LexiconExercise5_Garage/Garages/Garage.cs:202-208 | with no empty slot, RemoveVehicle's search finds exactly what the null-skipping search finds |
| GarageSlots.RemoveAsWrittenFailsAfterGap | LexiconExercise5_Garage/Garages/Garage.cs:202-208 | a table `[null, abc112, null, null]` makes the search dereference slot 0, though the vehicle is in slot 1 |
| GarageSlots.RemoveAsWrittenFailsOnMissingPlate | LexiconExercise5_Garage/Garages/Garage.cs:210-221 | in a garage that is not full, a plate nobody has reaches an empty slot, so the null return is unreachable |
| Garages.Garage.Empty | LexiconExercise5_Garage/Garages/Garage.cs:23-26 | the field initialisers: an empty array and all counters 0 |
| Garages.Garage.New | LexiconExercise5_Garage/Garages/Garage.cs:85-89 | fails with ArgumentOutOfRangeException iff the size is outside 1 … 524288; otherwise capacity = `FindArrayCapacitySize(size)` ≥ size, limit = size, 0 used, every slot empty, and the invariant holds |
| Garages.Garage.SetCapacity | LexiconExercise5_Garage/Garages/Garage.cs:32-44 | out of range throws and changes nothing; otherwise the array grows to the new power of two, keeping its slots, only when that is larger than the current capacity (`IsCapacityToSmall`, lines 92-95) |
| Garages.Garage.ResizeVehicleArray | LexiconExercise5_Garage/Garages/Garage.cs:50-56 | a fresh array of the new length holds the old slots followed by empty ones |
| Garages.Garage.SetGarageVehicleLimit | LexiconExercise5_Garage/Garages/Garage.cs:61-69 | out of range throws and keeps the limit; otherwise stores it |
| Garages.Garage.IsSlotEmpty | LexiconExercise5_Garage/Garages/Garage.cs:168-169 | despite its name, true exactly when the slot is occupied, that is, when a search for an empty slot starting there would go past it |
| Garages.Garage.IndexOfNull | LexiconExercise5_Garage/Garages/Garage.cs:159 | returns `FirstEmptyFrom(slots, 0)` |
| Garages.Garage.AddVehicle | LexiconExercise5_Garage/Garages/Garage.cs:146-166 | full (used == limit) throws ArgumentOutOfRangeException with nothing changed; otherwise returns true, used + 1, slots = `AddedSlots(old slots, old used, vehicle)`; same array, capacity never changes, invariant kept |
| Garages.Garage.FindIndex | LexiconExercise5_Garage/Garages/Garage.cs:202-208 | the `Array.FindIndex` loop returns exactly what `FindIndexAsWritten` describes (index, -1 or NullReferenceException) |
| Garages.Garage.RemoveVehicle | LexiconExercise5_Garage/Garages/Garage.cs:198-222 | as written: an empty slot before a match throws; no match returns null; a match is returned, its slot emptied, used − 1, all other slots unchanged; invariant kept |
| Garages.Garage.FindFirstMatch | LexiconExercise5_Garage/Garages/Garage.cs:182-190 | returns the `FirstMatchFrom` index, or -1 |
| Garages.Garage.RemoveVehicleSkippingEmpty | LexiconExercise5_Garage/Garages/Garage.cs:198-222 | corrected removal: the first vehicle answering to the plate is returned and its slot emptied, used − 1; no match returns null and changes nothing; invariant kept |
| Garages.Garage.ShowVehicle | LexiconExercise5_Garage/Garages/Garage.cs:178-191 | the description of the first parked vehicle answering to the plate, or null exactly when none does |
| Garages.Garage.GetEnumerator | LexiconExercise5_Garage/Garages/Garage.cs:227-237 | yields exactly the occupied slots' vehicles in slot order, `usedSpaces` of them |
| Garages.Garage.AddVehicles | LexiconExercise5_Garage/Garages/Garage.cs:297-300 | adds min(room, n) vehicles in order, slots = `AddedAll` of that prefix; fails with GarageFull iff the vehicles do not all fit, keeping the earlier adds |
| Garages.Garage.Add40VehiclesToCollection | LexiconExercise5_Garage/Garages/Garage.cs:247-301 | the 40-vehicle sample fleet goes in until the limit; a garage with less than 40 free spaces is filled to its limit and then throws |
| Garages.SampleFleet | LexiconExercise5_Garage/Garages/Garage.cs:249-295 | the 40 sample vehicles, each built by its constructor with a validator accepting every plate, all constructions succeeding |

## Left out

- Registry file persistence (`LoadLicensePlateFromFile`, `SaveLicensePlateToFile`) is file and JSON I/O. The constructor takes the loaded set instead.
- The registry set is a static field shared by all instances in C#. Here each registry owns its set.
- The `ToString` overrides produce display text. `ShowVehicle` takes the description function as a parameter.
- `GarageSlots.EqualsIgnoreCase`: case folding in `OrdinalIgnoreCase` is limited to ASCII letters. Plates that pass `IsValidLicensePlate` are ASCII. But the plate argument of `ShowVehicle` and `RemoveVehicle` is never validated, and a vehicle built with a validator that accepts every plate may carry any string. So for non-ASCII letters (such as `é` against `É`) the model answers "no match" where .NET may answer "match".
- `Vehicles.SetLicensePlate`: C# stores the validator in the vehicle when it is built and the setter always uses that one. The model's vehicle records do not hold the validator, because a record with a function field has no equality. The caller passes a validator on each call, and nothing ties it to the validator the vehicle was built with.
- `string.IsNullOrWhiteSpace` is modelled for the white-space characters `char.IsWhiteSpace` accepts. A null plate, or any other null argument, is not modelled, because strings are values here.
- The generic parameter `T` is fixed to the vehicle union. The `(T)vehicle` cast in `Add40VehiclesToCollection` cannot fail in the model.
- Vehicles are immutable values. A vehicle object changed in place after it was parked, and aliasing between garages, are not captured. The setters return the updated record.
- `VehicleTypePredicate` uses a kind tag instead of runtime type tests, so interfaces and subclass hierarchies are not modelled.
- The members of `VehicleColor` and `FuelType` are taken from the sample fleet. Their declarations are not part of this model.
- `Garages.Garage.New`: C# constructors cannot return a value, and its failure is the constructor throwing.
- `Garages.Garage.ResizeVehicleArray` requires a new length at least the old one. The only caller guarantees this, and `Array.Copy` would throw otherwise.
- The following are not part of this model, because they contain no garage logic:
  - console UI and message display;
  - the interactive builders and `GarageHandler`;
  - dependency-injection wiring and factories;
  - `EnumHelper` reflection;
  - `IGarage`'s undeclared `GetVehicleInformation` and `PerformedLinqQuery`;
  - stale duplicate vehicle files.
- Exceptions from `Math.Pow` rounding, and integer overflow, cannot occur in the modelled ranges. `Capacity = nextIndex + 1` is proved never to reallocate.

## Findings

| source | as written | input that shows it | evidently intended | confidence | as-written member | corrected member |
|---|---|---|---|---|---|---|
| LexiconExercise5_Garage/Garages/Garage.cs:202-208 | `Array.FindIndex`'s predicate reads `vehicle.LicensePlate` on every slot, including empty (null) ones, so an empty slot before the match throws NullReferenceException, and so does any miss in a garage that is not full | garage of size 2: add abc111 (slot 0) and abc112 (slot 1), remove abc111, then remove abc112 | skip empty slots as `ShowVehicle` does: return the matching vehicle, or null when none matches | not executed | GarageSlots.RemoveAsWrittenFailsAfterGap | Garages.Garage.RemoveVehicleSkippingEmpty |
| LexiconExercise5_Garage/Garages/Garage.cs:202-208 | `Array.FindIndex`'s predicate reads `vehicle.LicensePlate` on every slot, including empty (null) ones, so an empty slot before the match throws NullReferenceException, and so does any miss in a garage that is not full | garage of size 4: add four vehicles, remove the third and then the first, add abc115 (it goes into slot 2), then remove abc115 | skip empty slots as `ShowVehicle` does: return the matching vehicle, or null when none matches | not executed | GarageSlots.AddThenRemoveAsWrittenFails | Garages.Garage.RemoveVehicleSkippingEmpty |
